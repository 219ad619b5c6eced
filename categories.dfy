/**
 * The static category catalog of lib/transaction-categories.ts. The source's `type`
 * field is called `kind` throughout the model, `type` being a Dafny keyword.
 */
module Categories {
  import opened Wrappers
  import opened Seqs

  datatype CategoryType = Income | Expense | Investment

  /** The string stored in a transaction's `type` column. */
  function TypeName(t: CategoryType): (s: string)
    ensures s in {"income", "expense", "investment"}
  {
    match t
    case Income => "income"
    case Expense => "expense"
    case Investment => "investment"
  }

  lemma TypeNameInjective(a: CategoryType, b: CategoryType)
    ensures TypeName(a) == TypeName(b) <==> a == b
  {
  }

  datatype Category = Category(id: string, name: string, emoji: string, kind: CategoryType, description: Option<string>)

  /** `TRANSACTION_CATEGORIES`, in declaration order. */
  const Catalog: seq<Category> := [
    Category("salary", "Salário", "💰", Income, Some("Salário mensal")),
    Category("freelancing", "Freelancing", "💼", Income, Some("Trabalhos freelance")),
    Category("rent", "Aluguel", "🏠", Expense, Some("Aluguel mensal")),
    Category("market", "Mercado", "🛒", Expense, Some("Compras de supermercado")),
    Category("uber", "Uber", "🚗", Expense, Some("Transporte por aplicativo")),
    Category("bitcoin", "Bitcoin", "₿", Investment, Some("Criptomoeda Bitcoin")),
    Category("cdb", "CDB", "📈", Investment, Some("Certificado de Depósito Bancário"))
  ]

  /** `cats.find(cat => cat.id === id)`: the first entry with that id, or none. */
  function FindById(cats: seq<Category>, id: string): (r: Option<Category>)
    ensures r.None? <==> forall i :: 0 <= i < |cats| ==> cats[i].id != id
    ensures r.Some? ==> r.value in cats && r.value.id == id
    ensures r.Some? ==> exists i :: 0 <= i < |cats| && cats[i] == r.value &&
                                    forall j :: 0 <= j < i ==> cats[j].id != id
    decreases |cats|
  {
    if |cats| == 0 then None
    else if cats[0].id == id then Some(cats[0])
    else
      var r := FindById(cats[1..], id);
      assert forall i :: 1 <= i < |cats| ==> cats[i] == cats[1..][i - 1];
      if r.Some? then
        ghost var k :| 0 <= k < |cats[1..]| && cats[1..][k] == r.value &&
                        forall j :: 0 <= j < k ==> cats[1..][j].id != id;
        assert cats[k + 1] == r.value && forall j :: 0 <= j < k + 1 ==> cats[j].id != id;
        r
      else r
  }

  /** Every catalog entry has a non-empty id and emoji. */
  lemma CatalogTextsNonEmpty()
    ensures forall i :: 0 <= i < |Catalog| ==> |Catalog[i].id| > 0 && |Catalog[i].emoji| > 0
  {
  }

  /** `getCategoryById`. */
  function GetCategoryById(id: string): Option<Category> {
    FindById(Catalog, id)
  }

  predicate HasType(c: Category, t: CategoryType) {
    c.kind == t
  }

  /**
   * `getCategoriesByType`: the catalog entries of type `t`, in catalog order — the two
   * income entries, the three expense entries, or the two investment entries.
   */
  function GetCategoriesByType(t: CategoryType): (r: seq<Category>)
    ensures forall c :: c in r <==> c in Catalog && c.kind == t
    ensures t == Income ==> r == Catalog[..2]
    ensures t == Expense ==> r == Catalog[2..5]
    ensures t == Investment ==> r == Catalog[5..]
  {
    FilterMembers(Catalog, c => HasType(c, t));
    CatalogByTypeInOrder(t);
    Filter(Catalog, c => HasType(c, t))
  }

  /** The filter by type keeps the catalog's declaration order. */
  lemma CatalogByTypeInOrder(t: CategoryType)
    ensures Filter(Catalog, c => HasType(c, t)) ==
      if t == Income then Catalog[..2] else if t == Expense then Catalog[2..5] else Catalog[5..]
  {
    var income, expense, investment := Catalog[..2], Catalog[2..5], Catalog[5..];
    assert Catalog == income + expense + investment;
    assert forall i :: 0 <= i < |income| ==> income[i].kind == Income;
    assert forall i :: 0 <= i < |expense| ==> expense[i].kind == Expense;
    assert forall i :: 0 <= i < |investment| ==> investment[i].kind == Investment;
    FilterByTypeBlocks(income, expense, investment, t);
  }

  /** Filtering three blocks, each of one type, by a type leaves that type's block. */
  lemma FilterByTypeBlocks(income: seq<Category>, expense: seq<Category>, investment: seq<Category>, t: CategoryType)
    requires forall i :: 0 <= i < |income| ==> income[i].kind == Income
    requires forall i :: 0 <= i < |expense| ==> expense[i].kind == Expense
    requires forall i :: 0 <= i < |investment| ==> investment[i].kind == Investment
    ensures Filter(income + expense + investment, c => HasType(c, t)) ==
      if t == Income then income else if t == Expense then expense else investment
  {
    var p := c => HasType(c, t);
    FilterUniformBlocks(income, expense, investment, p, t == Income, t == Expense, t == Investment);
    match t
    case Income => assert income + [] + [] == income;
    case Expense => assert [] + expense + [] == expense;
    case Investment => assert [] + [] + investment == investment;
  }

  /** Catalog ids are pairwise distinct. */
  lemma CatalogIdsDistinct()
    ensures forall i, j :: 0 <= i < j < |Catalog| ==> Catalog[i].id != Catalog[j].id
  {
  }

  /** Looking up the id of any catalog entry returns exactly that entry. */
  lemma LookupOwnId(i: nat)
    requires i < |Catalog|
    ensures GetCategoryById(Catalog[i].id) == Some(Catalog[i])
  {
    CatalogIdsDistinct();
    var r := GetCategoryById(Catalog[i].id);
    var k :| 0 <= k < |Catalog| && Catalog[k] == r.value &&
             forall j :: 0 <= j < k ==> Catalog[j].id != Catalog[i].id;
    assert k == i;
  }

  /** `"other"`, the add dialog's fallback id, is not in the catalog. */
  lemma OtherIsUnknown()
    ensures GetCategoryById("other") == None
  {
    CatalogTextsNonEmpty();
    assert forall i :: 0 <= i < |Catalog| ==> Catalog[i].id[0] != 'o';
  }

  /** The results for the three types split any list of categories: nothing lost, nothing repeated. */
  lemma {:induction false} ByTypePartition(cats: seq<Category>)
    ensures multiset(Filter(cats, c => HasType(c, Income))) + multiset(Filter(cats, c => HasType(c, Expense)))
            + multiset(Filter(cats, c => HasType(c, Investment))) == multiset(cats)
    decreases |cats|
  {
    if |cats| > 0 {
      var init, last := cats[..|cats| - 1], cats[|cats| - 1];
      assert cats == init + [last];
      ByTypePartition(init);
      FilterSnoc(init, last, c => HasType(c, Income));
      FilterSnoc(init, last, c => HasType(c, Expense));
      FilterSnoc(init, last, c => HasType(c, Investment));
    }
  }

  /** The three calls of `getCategoriesByType` together partition the catalog. */
  lemma CatalogPartition()
    ensures multiset(GetCategoriesByType(Income)) + multiset(GetCategoriesByType(Expense))
            + multiset(GetCategoriesByType(Investment)) == multiset(Catalog)
  {
    ByTypePartition(Catalog);
  }
}

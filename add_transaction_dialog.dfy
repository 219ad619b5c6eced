/**
 * The dialog that creates a transaction (components/transactions/add-transaction-dialog.tsx):
 * its form state and transitions, the categories it offers, the guard and body of
 * `handleSave`, the success emoji, and the reset after a save. The token, the server's
 * status and today's date are inputs; amounts are in cents, as `Numbers.ParseCents` reads them.
 */
module AddTransactionDialog {
  import opened Wrappers
  import opened Json
  import opened Strings
  import opened Numbers
  import opened Calendar
  import opened Categories
  import TransactionsRoute

  const RequiredFields := "Preencha todos os campos obrigatórios"
  const MustSignIn := "Você precisa estar logado"
  const AddFailed := "Erro ao adicionar transação"

  /** The id sent when no category is chosen, and the default payment method. */
  const OtherId := "other"
  const DefaultMethod := "pix"

  /** The synthetic category of the "Sem Categoria" button, of the selected type. */
  function OtherCategory(t: CategoryType): (c: Category)
    ensures c.id == OtherId && c.kind == t && c.name == "Outro" && c.emoji == "📝"
  {
    Category(OtherId, "Outro", "📝", t, None)
  }

  /** The emoji of the success toast: the category's, else one per type. */
  function SuccessEmoji(category: Option<Category>, t: CategoryType): (e: string)
    ensures category.Some? && category.value.emoji != "" ==> e == category.value.emoji
    ensures (category.None? || category.value.emoji == "") ==>
      e == (if t == Income then "💵" else if t == Investment then "📊" else "💸")
    ensures e != ""
  {
    if category.Some? && category.value.emoji != "" then category.value.emoji
    else if t == Income then "💵"
    else if t == Investment then "📊"
    else "💸"
  }

  /** The text of the success toast; it shows the name as typed, untrimmed. */
  function SuccessMessage(emoji: string, name: string): string {
    emoji + " Transação \"" + name + "\" adicionada com sucesso!"
  }

  /** What `handleSave` ends with. */
  datatype SaveOutcome =
    | Incomplete                 // a required field is missing; nothing is sent
    | NotSignedIn                // no stored token; nothing is sent
    | SignedOut                  // the server answered 401: storage is cleared and the page goes to "/"
    | Failed                     // any other failure status
    | Saved(toast: string)       // the record was created; the dialog closes and resets

  /** A status of `response.ok`. */
  predicate IsOk(status: int) {
    200 <= status < 300
  }

  class Dialog {
    var date: Date
    var selectedType: Option<CategoryType>
    var selectedCategory: Option<Category>
    var customName: string
    var amount: string
    var paymentMethod: string

    /** The state the dialog opens in, and returns to after a save, for the given day. */
    predicate IsInitial(today: Date)
      reads this
    {
      date == today && selectedType.None? && selectedCategory.None? &&
      customName == "" && amount == "" && paymentMethod == ""
    }

    constructor (today: Date)
      ensures IsInitial(today)
    {
      date := today;
      selectedType := None;
      selectedCategory := None;
      customName := "";
      amount := "";
      paymentMethod := "";
    }

    /** `handleTypeSelect`: choose a type, which always drops the chosen category. */
    method SelectType(t: CategoryType)
      modifies this
      ensures selectedType == Some(t) && selectedCategory.None?
      ensures date == old(date) && customName == old(customName)
      ensures amount == old(amount) && paymentMethod == old(paymentMethod)
    {
      selectedType := Some(t);
      selectedCategory := None;
    }

    /** `handleCategorySelect`. */
    method SelectCategory(c: Category)
      modifies this
      ensures selectedCategory == Some(c) && selectedType == old(selectedType)
      ensures date == old(date) && customName == old(customName)
      ensures amount == old(amount) && paymentMethod == old(paymentMethod)
    {
      selectedCategory := Some(c);
    }

    /** "Sem Categoria", shown only once a type is chosen: select `"other"` of that type. */
    method SelectNoCategory()
      requires selectedType.Some?
      modifies this
      ensures selectedType == old(selectedType) && selectedCategory == Some(OtherCategory(old(selectedType).value))
      ensures date == old(date) && customName == old(customName)
      ensures amount == old(amount) && paymentMethod == old(paymentMethod)
    {
      selectedCategory := Some(OtherCategory(selectedType.value));
    }

    /** The close button on the chosen category. */
    method ClearCategory()
      modifies this
      ensures selectedCategory.None? && selectedType == old(selectedType)
      ensures date == old(date) && customName == old(customName)
      ensures amount == old(amount) && paymentMethod == old(paymentMethod)
    {
      selectedCategory := None;
    }

    /** "Voltar": forget the type, the category and the name. */
    method Back()
      modifies this
      ensures selectedType.None? && selectedCategory.None? && customName == ""
      ensures date == old(date) && amount == old(amount) && paymentMethod == old(paymentMethod)
    {
      selectedType := None;
      selectedCategory := None;
      customName := "";
    }

    /** The inputs' `onChange` handlers: each sets its own field only. */
    method SetName(s: string)
      modifies this
      ensures customName == s && selectedType == old(selectedType) && selectedCategory == old(selectedCategory)
      ensures date == old(date) && amount == old(amount) && paymentMethod == old(paymentMethod)
    {
      customName := s;
    }

    method SetAmount(s: string)
      modifies this
      ensures amount == s && selectedType == old(selectedType) && selectedCategory == old(selectedCategory)
      ensures date == old(date) && customName == old(customName) && paymentMethod == old(paymentMethod)
    {
      amount := s;
    }

    method SetMethod(s: string)
      modifies this
      ensures paymentMethod == s && selectedType == old(selectedType) && selectedCategory == old(selectedCategory)
      ensures date == old(date) && customName == old(customName) && amount == old(amount)
    {
      paymentMethod := s;
    }

    method SetDate(d: Date)
      modifies this
      ensures date == d && selectedType == old(selectedType) && selectedCategory == old(selectedCategory)
      ensures customName == old(customName) && amount == old(amount) && paymentMethod == old(paymentMethod)
    {
      date := d;
    }

    /** `filteredCategories`: the catalog entries of the chosen type, none before a type is chosen. */
    function FilteredCategories(): (r: seq<Category>)
      reads this
      ensures selectedType.None? ==> r == []
      ensures forall c :: c in r <==> selectedType.Some? && c in Catalog && c.kind == selectedType.value
      ensures selectedType == Some(Income) ==> r == Catalog[..2]
      ensures selectedType == Some(Expense) ==> r == Catalog[2..5]
      ensures selectedType == Some(Investment) ==> r == Catalog[5..]
    {
      if selectedType.Some? then GetCategoriesByType(selectedType.value) else []
    }

    /** The guard of `handleSave`: a type, a name that is not blank, and an amount. */
    predicate CanSave()
      reads this
    {
      selectedType.Some? && Trim(customName) != "" && amount != ""
    }

    /**
     * The JSON body `handleSave` posts: the trimmed name, the category id or `"other"`,
     * the chosen type, the amount parsed (`null` when it does not parse), the method or
     * `"pix"`, and the date.
     */
    function Payload(): (b: TransactionsRoute.PostBody)
      reads this
      requires selectedType.Some?
      ensures b.name == Value(Trim(customName)) && b.kind == Value(TypeName(selectedType.value))
      ensures b.categoryId == Value(if selectedCategory.Some? && selectedCategory.value.id != "" then selectedCategory.value.id else OtherId)
      ensures b.amount == FromOption(ParseCents(amount))
      ensures b.paymentMethod == Value(if paymentMethod != "" then paymentMethod else DefaultMethod)
      ensures b.date == Value(date)
    {
      TransactionsRoute.PostBody(
        Value(Trim(customName)),
        Value(TypeName(selectedType.value)),
        Value(if selectedCategory.Some? && selectedCategory.value.id != "" then selectedCategory.value.id else OtherId),
        FromOption(ParseCents(amount)),
        Value(if paymentMethod != "" then paymentMethod else DefaultMethod),
        Value(date))
    }

    /**
     * `handleSave`, given whether a token is stored, the status the server answers and
     * today's date: refuse an incomplete form, send the payload, and reset on success.
     */
    method HandleSave(hasToken: bool, status: int, today: Date) returns (sent: Option<TransactionsRoute.PostBody>, outcome: SaveOutcome)
      modifies this
      ensures !old(CanSave()) ==> outcome == Incomplete && sent.None?
      ensures old(CanSave()) && !hasToken ==> outcome == NotSignedIn && sent.None?
      ensures old(CanSave()) && hasToken ==> sent == Some(old(Payload()))
      ensures old(CanSave()) && hasToken && status == 401 ==> outcome == SignedOut
      ensures old(CanSave()) && hasToken && status != 401 && !IsOk(status) ==> outcome == Failed
      ensures old(CanSave()) && hasToken && IsOk(status) ==>
        outcome == Saved(SuccessMessage(SuccessEmoji(old(selectedCategory), old(selectedType.value)), old(customName))) &&
        IsInitial(today)
      ensures !outcome.Saved? ==>
        date == old(date) && selectedType == old(selectedType) && selectedCategory == old(selectedCategory) &&
        customName == old(customName) && amount == old(amount) && paymentMethod == old(paymentMethod)
    {
      if !CanSave() {
        return None, Incomplete;
      }
      if !hasToken {
        return None, NotSignedIn;
      }
      sent := Some(Payload());
      if !IsOk(status) {
        outcome := if status == 401 then SignedOut else Failed;
        return;
      }
      outcome := Saved(SuccessMessage(SuccessEmoji(selectedCategory, selectedType.value), customName));
      Reset(today);
    }

    /** The reset after a save: every field back to its initial value. */
    method Reset(today: Date)
      modifies this
      ensures IsInitial(today)
    {
      selectedType := None;
      selectedCategory := None;
      customName := "";
      amount := "";
      paymentMethod := "";
      date := today;
    }
  }

  /**
   * The body of a form with no category, or with "Sem Categoria", carries `"other"`; the
   * transactions handler refuses it as an invalid category once the rest is complete.
   */
  lemma NoCategoryRefused(session: Option<string>, b: TransactionsRoute.PostBody, newId: string)
    requires b.categoryId == Value(OtherId)
    requires TruthyOpt(session) && TruthyNum(b.amount) && TruthyStr(b.paymentMethod) && b.date.Value?
    ensures TransactionsRoute.PostTransaction(session, b, newId) == Failure(400, TransactionsRoute.InvalidCategory)
  {
    OtherIsUnknown();
  }

  /** Whenever the category is missing or synthetic, the dialog's body carries `"other"`. */
  lemma NoCategorySendsOther(d: Dialog)
    requires d.selectedType.Some?
    requires d.selectedCategory.None? || d.selectedCategory == Some(OtherCategory(d.selectedType.value))
    ensures d.Payload().categoryId == Value(OtherId)
    ensures d.Payload().paymentMethod.v != ""
  {
  }

  /** A complete body naming a catalog category is accepted, with that category's name and type. */
  lemma CatalogBodyAccepted(session: Option<string>, b: TransactionsRoute.PostBody, i: nat, newId: string)
    requires TruthyOpt(session) && i < |Catalog|
    requires b.categoryId == Value(Catalog[i].id)
    requires TruthyNum(b.amount) && TruthyStr(b.paymentMethod) && b.date.Value?
    ensures var r := TransactionsRoute.PostTransaction(session, b, newId);
      r.Success? && r.value.title == Catalog[i].name && r.value.kind == TypeName(Catalog[i].kind)
  {
    CatalogTextsNonEmpty();
    LookupOwnId(i);
  }

  /**
   * A catalog category and an amount that parses to a non-zero number of cents make a
   * body the handler accepts; the stored title is the category's name, not the typed one.
   */
  lemma CatalogCategoryAccepted(session: Option<string>, d: Dialog, i: nat, newId: string)
    requires TruthyOpt(session) && i < |Catalog|
    requires d.selectedType.Some? && d.selectedCategory == Some(Catalog[i])
    requires ParseCents(d.amount).Some? && ParseCents(d.amount).value != 0
    ensures var r := TransactionsRoute.PostTransaction(session, d.Payload(), newId);
      r.Success? && r.value.title == Catalog[i].name && r.value.kind == TypeName(Catalog[i].kind)
  {
    CatalogTextsNonEmpty();
    CatalogBodyAccepted(session, d.Payload(), i, newId);
  }
}

/**
 * The edit dialog of a transaction (components/transactions/transaction-dialog.tsx): the
 * initial form, the save guard and confirmation, the type rule for `investmentType`,
 * the unsaved-changes test and the cancel decision. Today's date is an input; amounts
 * are whole numbers, shown as `Number.prototype.toString` shows an integer.
 */
module TransactionDialog {
  import opened Wrappers
  import opened Numbers
  import opened Calendar

  const InvestmentKind := "investment"

  /** The `transaction` prop; `category` and `investmentType` may be missing. */
  datatype TransactionProps = TransactionProps(
    id: string,
    title: string,
    amount: int,
    kind: string,
    paymentMethod: string,
    category: Option<string>,
    investmentType: Option<string>,
    date: Date)

  /** `formData`: every field a string. */
  datatype FormData = FormData(
    title: string,
    amount: string,
    kind: string,
    paymentMethod: string,
    category: string,
    investmentType: string)

  const EmptyForm := FormData("", "", "", "", "", "")

  /** The initial `formData`: the transaction's fields, missing ones as `""`, the amount as text. */
  function InitialForm(t: Option<TransactionProps>): (f: FormData)
    ensures t.None? ==> f == EmptyForm
    ensures t.Some? ==>
      f.title == t.value.title && f.amount == IntToString(t.value.amount) && f.kind == t.value.kind &&
      f.paymentMethod == t.value.paymentMethod && f.category == t.value.category.GetOr("") &&
      f.investmentType == t.value.investmentType.GetOr("")
  {
    match t
    case None => EmptyForm
    case Some(p) =>
      FormData(p.title, IntToString(p.amount), p.kind, p.paymentMethod, p.category.GetOr(""), p.investmentType.GetOr(""))
  }

  /** The initial `date`: the transaction's, else today. */
  function InitialDate(t: Option<TransactionProps>, today: Date): (d: Date)
    ensures d == if t.Some? then t.value.date else today
  {
    match t
    case None => today
    case Some(p) => p.date
  }

  /** A body `handleSave` accepts: `title`, `amount` and `type` are all non-empty. */
  predicate Fillable(f: FormData) {
    f.title != "" && f.amount != "" && f.kind != ""
  }

  /**
   * `hasChanges` as written: a missing `category` or `investmentType` of the transaction
   * is compared with the form's `""`, which always differs.
   */
  function HasChangesAsWritten(t: Option<TransactionProps>, f: FormData, date: Date): (r: bool)
    ensures t.None? ==> (r <==> f.title != "" || f.amount != "")
    ensures t.Some? && (t.value.category.None? || t.value.investmentType.None?) ==> r
  {
    match t
    case None => f.title != "" || f.amount != ""
    case Some(p) =>
      f.title != p.title || f.amount != IntToString(p.amount) || f.kind != p.kind ||
      f.paymentMethod != p.paymentMethod || Some(f.category) != p.category ||
      Some(f.investmentType) != p.investmentType || date != p.date
  }

  /** An untouched dialog for a transaction without a category reports unsaved changes. */
  lemma UntouchedReportsChangesAsWritten()
    ensures var t := TransactionProps("t1", "Mercado", 120, "expense", "pix", None, None, Date(2024, 5, 10));
      HasChangesAsWritten(Some(t), InitialForm(Some(t)), InitialDate(Some(t), Date(2024, 6, 1)))
  {
  }

  /** `hasChanges` comparing with the transaction's fields as the initial form normalised them. */
  function HasChanges(t: Option<TransactionProps>, f: FormData, date: Date): (r: bool)
    ensures t.None? ==> (r <==> f.title != "" || f.amount != "")
    ensures t.Some? ==> (r <==> f != InitialForm(t) || date != t.value.date)
  {
    match t
    case None => f.title != "" || f.amount != ""
    case Some(p) =>
      f.title != p.title || f.amount != IntToString(p.amount) || f.kind != p.kind ||
      f.paymentMethod != p.paymentMethod || f.category != p.category.GetOr("") ||
      f.investmentType != p.investmentType.GetOr("") || date != p.date
  }

  /** The dialog as it opens reports no changes, for a new and for an existing transaction. */
  lemma UntouchedHasNoChanges(t: Option<TransactionProps>, today: Date)
    ensures !HasChanges(t, InitialForm(t), InitialDate(t, today))
  {
  }

  /** Where the transaction has both optional fields, the written test and the corrected one agree. */
  lemma AsWrittenAgreesWhenPresent(t: TransactionProps, f: FormData, date: Date)
    requires t.category.Some? && t.investmentType.Some?
    ensures HasChangesAsWritten(Some(t), f, date) == HasChanges(Some(t), f, date)
  {
  }

  /** The `type` select: set the type; `investmentType` survives only when the type is `"investment"`. */
  function WithKind(f: FormData, value: string): (r: FormData)
    ensures r.kind == value
    ensures r.investmentType == if value == InvestmentKind then f.investmentType else ""
    ensures r.title == f.title && r.amount == f.amount && r.paymentMethod == f.paymentMethod && r.category == f.category
  {
    f.(kind := value, investmentType := if value == InvestmentKind then f.investmentType else "")
  }

  /** After any type change, a non-empty `investmentType` implies the type is `"investment"`. */
  lemma InvestmentTypeOnlyForInvestments(f: FormData, value: string)
    ensures WithKind(f, value).investmentType != "" ==> WithKind(f, value).kind == InvestmentKind
  {
  }

  class Dialog {
    const original: Option<TransactionProps>
    var form: FormData
    var date: Date
    var open: bool
    var showConfirmation: bool
    var showUnsavedAlert: bool
    var loading: bool

    constructor (transaction: Option<TransactionProps>, today: Date)
      ensures original == transaction && form == InitialForm(transaction) && date == InitialDate(transaction, today)
      ensures open && !showConfirmation && !showUnsavedAlert && !loading
    {
      original := transaction;
      form := InitialForm(transaction);
      date := InitialDate(transaction, today);
      open := true;
      showConfirmation := false;
      showUnsavedAlert := false;
      loading := false;
    }

    /** The disabled state of the save button. */
    predicate SaveDisabled()
      reads this
    {
      loading || form.title == "" || form.amount == "" || form.kind == ""
    }

    /** `handleSave`: open the confirmation when `title`, `amount` and `type` are all set. */
    method HandleSave()
      modifies this
      ensures showConfirmation == (old(showConfirmation) || Fillable(form))
      ensures form == old(form) && date == old(date) && open == old(open)
      ensures showUnsavedAlert == old(showUnsavedAlert) && loading == old(loading)
    {
      if form.title != "" && form.amount != "" && form.kind != "" {
        showConfirmation := true;
      }
    }

    /** `confirmSave`: the request is only logged; the confirmation and the dialog close. */
    method ConfirmSave()
      modifies this
      ensures !showConfirmation && !open && !loading
      ensures form == old(form) && date == old(date) && showUnsavedAlert == old(showUnsavedAlert)
    {
      showConfirmation := false;
      open := false;
      loading := false;
    }

    /** `handleCancel` as written: ask before discarding changes, otherwise close, with the change test of the source. */
    method HandleCancel()
      modifies this
      ensures HasChangesAsWritten(original, form, date) ==> showUnsavedAlert && open == old(open)
      ensures !HasChangesAsWritten(original, form, date) ==> !open && showUnsavedAlert == old(showUnsavedAlert)
      ensures form == old(form) && date == old(date)
      ensures showConfirmation == old(showConfirmation) && loading == old(loading)
    {
      if HasChangesAsWritten(original, form, date) {
        showUnsavedAlert := true;
      } else {
        open := false;
      }
    }

    /** `handleCancel` with the corrected change test. */
    method HandleCancelCorrected()
      modifies this
      ensures HasChanges(original, form, date) ==> showUnsavedAlert && open == old(open)
      ensures !HasChanges(original, form, date) ==> !open && showUnsavedAlert == old(showUnsavedAlert)
      ensures form == old(form) && date == old(date)
      ensures showConfirmation == old(showConfirmation) && loading == old(loading)
    {
      if HasChanges(original, form, date) {
        showUnsavedAlert := true;
      } else {
        open := false;
      }
    }

    /** The `type` select's `onValueChange`. */
    method SetKind(value: string)
      modifies this
      ensures form == WithKind(old(form), value)
      ensures date == old(date) && open == old(open) && showConfirmation == old(showConfirmation)
      ensures showUnsavedAlert == old(showUnsavedAlert) && loading == old(loading)
    {
      form := WithKind(form, value);
    }

    /** The other inputs: each replaces its own field of `formData`. */
    method SetTitle(value: string)
      modifies this
      ensures form == old(form).(title := value)
      ensures date == old(date) && open == old(open) && showConfirmation == old(showConfirmation)
      ensures showUnsavedAlert == old(showUnsavedAlert) && loading == old(loading)
    {
      form := form.(title := value);
    }

    method SetAmount(value: string)
      modifies this
      ensures form == old(form).(amount := value)
      ensures date == old(date) && open == old(open) && showConfirmation == old(showConfirmation)
      ensures showUnsavedAlert == old(showUnsavedAlert) && loading == old(loading)
    {
      form := form.(amount := value);
    }

    method SetMethod(value: string)
      modifies this
      ensures form == old(form).(paymentMethod := value)
      ensures date == old(date) && open == old(open) && showConfirmation == old(showConfirmation)
      ensures showUnsavedAlert == old(showUnsavedAlert) && loading == old(loading)
    {
      form := form.(paymentMethod := value);
    }

    method SetCategory(value: string)
      modifies this
      ensures form == old(form).(category := value)
      ensures date == old(date) && open == old(open) && showConfirmation == old(showConfirmation)
      ensures showUnsavedAlert == old(showUnsavedAlert) && loading == old(loading)
    {
      form := form.(category := value);
    }

    method SetInvestmentType(value: string)
      modifies this
      ensures form == old(form).(investmentType := value)
      ensures date == old(date) && open == old(open) && showConfirmation == old(showConfirmation)
      ensures showUnsavedAlert == old(showUnsavedAlert) && loading == old(loading)
    {
      form := form.(investmentType := value);
    }

    method SetDate(d: Date)
      modifies this
      ensures date == d && form == old(form) && open == old(open) && showConfirmation == old(showConfirmation)
      ensures showUnsavedAlert == old(showUnsavedAlert) && loading == old(loading)
    {
      date := d;
    }
  }

  /** While not loading, the save button is enabled exactly when `handleSave` would ask for confirmation. */
  lemma SaveEnabledIffFillable(d: Dialog)
    requires !d.loading
    ensures !d.SaveDisabled() <==> Fillable(d.form)
  {
  }

  /**
   * As written, cancelling a freshly opened dialog closes it without the alert
   * when there is no transaction or the transaction has both optional fields.
   */
  method CancelUntouched(transaction: Option<TransactionProps>, today: Date) returns (d: Dialog)
    requires transaction.None? || (transaction.value.category.Some? && transaction.value.investmentType.Some?)
    ensures !d.open && !d.showUnsavedAlert
  {
    d := new Dialog(transaction, today);
    UntouchedHasNoChanges(transaction, today);
    if transaction.Some? {
      AsWrittenAgreesWhenPresent(transaction.value, d.form, d.date);
    }
    d.HandleCancel();
  }

  /**
   * As written, cancelling a freshly opened dialog for a transaction without a
   * category or an investment type raises the unsaved-changes alert and stays open.
   */
  method CancelUntouchedAlerts(transaction: TransactionProps, today: Date) returns (d: Dialog)
    requires transaction.category.None? || transaction.investmentType.None?
    ensures d.open && d.showUnsavedAlert
  {
    d := new Dialog(Some(transaction), today);
    d.HandleCancel();
  }

  /** With the corrected change test, cancelling a freshly opened dialog always closes it without the alert. */
  method CancelUntouchedCorrected(transaction: Option<TransactionProps>, today: Date) returns (d: Dialog)
    ensures !d.open && !d.showUnsavedAlert
  {
    d := new Dialog(transaction, today);
    UntouchedHasNoChanges(transaction, today);
    d.HandleCancelCorrected();
  }
}

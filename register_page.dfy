/**
 * The sign-up form (app/register/page.tsx): the rules of `registerSchema`, the field
 * errors the form shows, the request body `onSubmit` sends, and what happens after the
 * reply. The schema's email check is a predicate given by the caller (`isEmail`).
 */
module RegisterPage {
  import opened Wrappers
  import opened Json
  import Calendar
  import Ledger
  import RegisterRoute

  const UsernameShort := "Nome de usuário deve ter pelo menos 3 caracteres"
  const FirstNameShort := "Nome deve ter pelo menos 2 caracteres"
  const LastNameShort := "Sobrenome deve ter pelo menos 2 caracteres"
  const EmailInvalid := "Email inválido"
  const PasswordShort := "Senha deve ter pelo menos 6 caracteres"
  const PasswordsDiffer := "As senhas não coincidem"
  const CreateFailed := "Erro ao criar conta"
  const SignInFailed := "Conta criada, mas erro ao fazer login. Tente fazer login manualmente."

  /** The form values; `phone` may be missing. */
  datatype RegisterForm = RegisterForm(
    username: string,
    firstName: string,
    lastName: string,
    email: string,
    phone: Option<string>,
    password: string,
    confirmPassword: string)

  /** The fields of the form, which are also the paths issues are reported on. */
  datatype FieldName = Username | FirstName | LastName | Email | Phone | Password | ConfirmPassword

  /** The keys of the schema in declaration order; the refinement's path comes last. */
  const SchemaOrder: seq<FieldName> := [Username, FirstName, LastName, Email, Phone, Password, ConfirmPassword]

  /** Whether the rule on field `p` fails; `phone` accepts any string or none. */
  predicate Fails(f: RegisterForm, isEmail: string -> bool, p: FieldName) {
    match p
    case Username => |f.username| < 3
    case FirstName => |f.firstName| < 2
    case LastName => |f.lastName| < 2
    case Email => !isEmail(f.email)
    case Phone => false
    case Password => |f.password| < 6
    case ConfirmPassword => f.password != f.confirmPassword
  }

  /** The message of the rule on field `p`. */
  function Message(p: FieldName): string {
    match p
    case Username => UsernameShort
    case FirstName => FirstNameShort
    case LastName => LastNameShort
    case Email => EmailInvalid
    case Phone => ""
    case Password => PasswordShort
    case ConfirmPassword => PasswordsDiffer
  }

  /** One validation issue: the field it is reported on and its message. */
  datatype Issue = Issue(path: FieldName, message: string)

  /** The issues of the rules on the fields `ps`, in that order. */
  function Collect(f: RegisterForm, isEmail: string -> bool, ps: seq<FieldName>): (r: seq<Issue>)
    ensures forall i :: i in r ==> i.path in ps && Fails(f, isEmail, i.path) && i.message == Message(i.path)
    ensures forall p :: p in ps && Fails(f, isEmail, p) ==> Issue(p, Message(p)) in r
  {
    if |ps| == 0 then []
    else
      var rest := Collect(f, isEmail, ps[1..]);
      assert forall p :: p in ps ==> p == ps[0] || p in ps[1..];
      if Fails(f, isEmail, ps[0]) then [Issue(ps[0], Message(ps[0]))] + rest else rest
  }

  /**
   * The issues of `registerSchema.safeParse`: one per failing rule, in the order of the
   * schema's keys, then the refinement reported on `confirmPassword`.
   */
  function Issues(f: RegisterForm, isEmail: string -> bool): (r: seq<Issue>)
    ensures r == [] <==>
      |f.username| >= 3 && |f.firstName| >= 2 && |f.lastName| >= 2 && isEmail(f.email) &&
      |f.password| >= 6 && f.password == f.confirmPassword
    ensures forall i :: i in r ==> Fails(f, isEmail, i.path) && i.message == Message(i.path)
    ensures forall p :: Fails(f, isEmail, p) ==> Issue(p, Message(p)) in r
  {
    SchemaCoversFields();
    RulesPass(f, isEmail);
    var r := Collect(f, isEmail, SchemaOrder);
    assert r != [] ==> r[0] in r;
    r
  }

  /** No rule fails exactly when every length bound holds, the email passes and the passwords agree. */
  lemma RulesPass(f: RegisterForm, isEmail: string -> bool)
    ensures (forall p :: !Fails(f, isEmail, p)) <==>
      |f.username| >= 3 && |f.firstName| >= 2 && |f.lastName| >= 2 && isEmail(f.email) &&
      |f.password| >= 6 && f.password == f.confirmPassword
  {
    assert (!Fails(f, isEmail, Username) && !Fails(f, isEmail, FirstName) && !Fails(f, isEmail, LastName) &&
            !Fails(f, isEmail, Email) && !Fails(f, isEmail, Password) && !Fails(f, isEmail, ConfirmPassword)) <==>
           (|f.username| >= 3 && |f.firstName| >= 2 && |f.lastName| >= 2 && isEmail(f.email) &&
            |f.password| >= 6 && f.password == f.confirmPassword);
  }

  /** Every field of the form is a key of the schema. */
  lemma SchemaCoversFields()
    ensures forall p: FieldName :: p in SchemaOrder
  {
    forall p: FieldName ensures p in SchemaOrder {
      match p
      case Username => assert SchemaOrder[0] == p;
      case FirstName => assert SchemaOrder[1] == p;
      case LastName => assert SchemaOrder[2] == p;
      case Email => assert SchemaOrder[3] == p;
      case Phone => assert SchemaOrder[4] == p;
      case Password => assert SchemaOrder[5] == p;
      case ConfirmPassword => assert SchemaOrder[6] == p;
    }
  }

  /** `errors[path].message`: the first issue reported on `path`, if any. */
  function ErrorFor(issues: seq<Issue>, path: FieldName): (r: Option<string>)
    ensures r.None? <==> forall i :: i in issues ==> i.path != path
    ensures r.Some? ==> Issue(path, r.value) in issues
  {
    if |issues| == 0 then None
    else if issues[0].path == path then Some(issues[0].message)
    else ErrorFor(issues[1..], path)
  }

  /**
   * Each field shows exactly its own rule's message when that rule fails, and nothing
   * otherwise; in particular a password mismatch is shown under the confirmation field,
   * whatever else is wrong, and `phone` never shows an error.
   */
  lemma FieldErrors(f: RegisterForm, isEmail: string -> bool)
    ensures forall p :: ErrorFor(Issues(f, isEmail), p) == if Fails(f, isEmail, p) then Some(Message(p)) else None
    ensures ErrorFor(Issues(f, isEmail), ConfirmPassword) ==
      if f.password != f.confirmPassword then Some(PasswordsDiffer) else None
    ensures ErrorFor(Issues(f, isEmail), Phone) == None
  {
    var r := Issues(f, isEmail);
    forall p ensures ErrorFor(r, p) == if Fails(f, isEmail, p) then Some(Message(p)) else None {
      if Fails(f, isEmail, p) {
        assert Issue(p, Message(p)) in r;
      }
    }
  }

  /** The `payload` of `onSubmit`: the fields without `confirmPassword`, `phone` null when empty or missing. */
  function Payload(f: RegisterForm): (b: RegisterRoute.RegisterBody)
    ensures b.username == Value(f.username) && b.firstName == Value(f.firstName) && b.lastName == Value(f.lastName)
    ensures b.email == Value(f.email) && b.password == Value(f.password)
    ensures b.phone == Null <==> f.phone.None? || f.phone == Some("")
    ensures b.phone != Null ==> b.phone == Value(f.phone.value)
  {
    RegisterRoute.RegisterBody(
      Value(f.username), Value(f.firstName), Value(f.lastName), Value(f.email),
      if f.phone.None? || f.phone == Some("") then Null else Value(f.phone.value),
      Value(f.password))
  }

  /**
   * A form with no issues sends a body that has every field the handler requires, as
   * long as the email check refuses the empty string; the stored phone is the typed one.
   */
  lemma ValidFormHasRequired(f: RegisterForm, isEmail: string -> bool)
    requires Issues(f, isEmail) == []
    requires !isEmail("")
    ensures RegisterRoute.HasRequired(Payload(f))
    ensures var u := RegisterRoute.NewUser("", Payload(f), "", Calendar.Date(0, 1, 1));
      u.phone == (if f.phone == Some("") then None else f.phone)
  {
  }

  /** What the page does after the request: an error toast, a success toast, and where it navigates. */
  datatype Outcome = Outcome(errorToast: Option<string>, successToast: bool, navigate: Option<string>)

  /**
   * After the sign-up reply: a refused request shows `error`, else `details`, else a
   * fixed message, and stays; a created account signs in and goes to the dashboard,
   * or home with an error toast when signing in fails.
   */
  function AfterReply(ok: bool, error: Field<string>, details: Field<string>, signInError: bool): (o: Outcome)
    ensures !ok ==> !o.successToast && o.navigate.None? && o.errorToast.Some?
    ensures !ok && TruthyStr(error) ==> o.errorToast == Some(error.v)
    ensures !ok && !TruthyStr(error) && TruthyStr(details) ==> o.errorToast == Some(details.v)
    ensures !ok && !TruthyStr(error) && !TruthyStr(details) ==> o.errorToast == Some(CreateFailed)
    ensures ok ==> o.successToast && (o.navigate == Some("/dashboard") <==> !signInError)
    ensures ok && signInError ==> o == Outcome(Some(SignInFailed), true, Some("/"))
    ensures ok && !signInError ==> o.errorToast.None?
  {
    if !ok then
      Outcome(Some(if TruthyStr(error) then error.v else if TruthyStr(details) then details.v else CreateFailed), false, None)
    else if signInError then Outcome(Some(SignInFailed), true, Some("/"))
    else Outcome(None, true, Some("/dashboard"))
  }

  /** A refusal by the sign-up handler is shown to the user with the handler's own message. */
  lemma RefusalShown(users: seq<Ledger.User>, f: RegisterForm, signInError: bool)
    requires RegisterRoute.RegisterGuard(users, Payload(f)).Stop?
    ensures var g := RegisterRoute.RegisterGuard(users, Payload(f));
      AfterReply(false, Value(g.error), Absent, signInError).errorToast == Some(g.error)
  {
  }
}

/**
 * The onboarding form (app/onboarding/page.tsx): its field and error state, the
 * validation, the request body it sends, and where the page sends a visitor.
 */
module OnboardingPage {
  import opened Wrappers
  import opened Json
  import opened Strings
  import opened Numbers
  import OnboardingRoute

  const FirstNameRequired := "Nome é obrigatório"
  const LastNameRequired := "Sobrenome é obrigatório"

  /** The `name` attribute of an input of the form. */
  datatype InputName = FirstName | LastName | Age | Phone | Address

  /** The fields of `formData`, all strings as typed. */
  datatype FormData = FormData(firstName: string, lastName: string, age: string, phone: string, address: string)

  /** `{ ...prev, [name]: value }`. */
  function WithInput(f: FormData, name: InputName, value: string): (r: FormData)
    ensures name == FirstName ==> r == f.(firstName := value)
    ensures name == LastName ==> r == f.(lastName := value)
    ensures name == Age ==> r == f.(age := value)
    ensures name == Phone ==> r == f.(phone := value)
    ensures name == Address ==> r == f.(address := value)
  {
    match name
    case FirstName => f.(firstName := value)
    case LastName => f.(lastName := value)
    case Age => f.(age := value)
    case Phone => f.(phone := value)
    case Address => f.(address := value)
  }

  /** The error each name field shows: its message when the trimmed value is empty, else none. */
  function FirstNameError(f: FormData): (e: string)
    ensures e != "" <==> IsBlank(f.firstName)
  {
    if Trim(f.firstName) == "" then FirstNameRequired else ""
  }

  function LastNameError(f: FormData): (e: string)
    ensures e != "" <==> IsBlank(f.lastName)
  {
    if Trim(f.lastName) == "" then LastNameRequired else ""
  }

  /** The body `handleSubmit` sends: `age` parsed or `null`, `phone` and `address` `null` when empty. */
  function Payload(f: FormData): (b: OnboardingRoute.OnboardingBody)
    ensures b.firstName == Value(f.firstName) && b.lastName == Value(f.lastName)
    ensures f.age == "" ==> b.age == Null
    ensures f.age != "" ==> b.age == FromOption(ParseInt(f.age))
    ensures b.phone == NonEmptyOrNull(f.phone) && b.address == NonEmptyOrNull(f.address)
  {
    OnboardingRoute.OnboardingBody(
      Value(f.firstName), Value(f.lastName), NonEmptyOrNull(f.phone),
      if f.age != "" then FromOption(ParseInt(f.age)) else Null,
      NonEmptyOrNull(f.address))
  }

  /** An age typed as the digits of a number is sent as that number. */
  lemma PayloadAgeRoundTrip(f: FormData, age: int)
    requires f.age == IntToString(age)
    ensures Payload(f).age == Value(age)
  {
    ParseIntOfIntToString(age);
  }

  /** A body the form lets through passes the onboarding handler's checks whenever there is a session. */
  lemma ValidPayloadAccepted(f: FormData, session: Option<string>)
    requires FirstNameError(f) == "" && LastNameError(f) == ""
    requires TruthyOpt(session)
    ensures OnboardingRoute.OnboardingGuard(session, Payload(f)) == Pass
  {
    assert IsBlank("");
  }

  /** The status `useSession` reports. */
  datatype SessionStatus = Loading | Unauthenticated | Authenticated

  /** The effect's redirect: signed-out visitors go home, already onboarded users to the dashboard. */
  function Redirect(status: SessionStatus, onboardingCompleted: bool): (r: Option<string>)
    ensures status.Unauthenticated? <==> r == Some("/")
    ensures (status.Authenticated? && onboardingCompleted) <==> r == Some("/dashboard")
    ensures r.None? <==> status.Loading? || (status.Authenticated? && !onboardingCompleted)
  {
    if status.Unauthenticated? then Some("/")
    else if status.Authenticated? && onboardingCompleted then Some("/dashboard")
    else None
  }

  /** The page's form state. */
  class OnboardingForm {
    var data: FormData
    var firstNameError: string
    var lastNameError: string

    constructor ()
      ensures data == FormData("", "", "", "", "") && firstNameError == "" && lastNameError == ""
    {
      data := FormData("", "", "", "", "");
      firstNameError := "";
      lastNameError := "";
    }

    /** `handleChange`: set the named field; clear that field's error when it shows one. */
    method HandleChange(name: InputName, value: string)
      modifies this
      ensures data == WithInput(old(data), name, value)
      ensures firstNameError == if name == FirstName then "" else old(firstNameError)
      ensures lastNameError == if name == LastName then "" else old(lastNameError)
    {
      data := WithInput(data, name, value);
      if name == FirstName && firstNameError != "" {
        firstNameError := "";
      } else if name == LastName && lastNameError != "" {
        lastNameError := "";
      }
    }

    /** `validateForm`: set both errors afresh and report whether neither is set. */
    method ValidateForm() returns (ok: bool)
      modifies this
      ensures data == old(data)
      ensures firstNameError == FirstNameError(data) && lastNameError == LastNameError(data)
      ensures ok <==> !IsBlank(data.firstName) && !IsBlank(data.lastName)
    {
      var first, last := "", "";
      if Trim(data.firstName) == "" {
        first := FirstNameRequired;
      }
      if Trim(data.lastName) == "" {
        last := LastNameRequired;
      }
      firstNameError, lastNameError := first, last;
      ok := first == "" && last == "";
    }

    /** `handleSubmit`: nothing is sent when validation fails, otherwise the payload. */
    method HandleSubmit() returns (sent: Option<OnboardingRoute.OnboardingBody>)
      modifies this
      ensures data == old(data)
      ensures firstNameError == FirstNameError(data) && lastNameError == LastNameError(data)
      ensures sent.None? <==> IsBlank(data.firstName) || IsBlank(data.lastName)
      ensures sent.Some? ==> sent.value == Payload(data)
    {
      var ok := ValidateForm();
      if !ok {
        return None;
      }
      sent := Some(Payload(data));
    }
  }
}

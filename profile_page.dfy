/**
 * The profile page (app/profile/page.tsx): the form state filled from `GET
 * /api/user/profile`, its change handler, the body it sends to `PUT`, and the avatar
 * initials. Upper-casing is ASCII-only, as `Strings.ToUpper` is.
 */
module ProfilePage {
  import opened Wrappers
  import opened Json
  import opened Seqs
  import opened Strings
  import opened Numbers
  import opened Ledger
  import ProfileRoute

  /** `userData`: every field a string. */
  datatype UserData = UserData(firstName: string, lastName: string, email: string, age: string, phone: string, address: string)

  const EmptyData := UserData("", "", "", "", "", "")

  /** The fetched profile with missing fields as `""` and the age as its decimal text. */
  function Loaded(v: ProfileRoute.ProfileView): (d: UserData)
    ensures d.firstName == v.firstName.GetOr("") && d.lastName == v.lastName.GetOr("") && d.email == v.email
    ensures d.age == (if v.age.Some? then IntToString(v.age.value) else "")
    ensures d.phone == v.phone.GetOr("") && d.address == v.address.GetOr("")
  {
    UserData(v.firstName.GetOr(""), v.lastName.GetOr(""), v.email,
             if v.age.Some? then IntToString(v.age.value) else "", v.phone.GetOr(""), v.address.GetOr(""))
  }

  /** `fetchUserData`: a successful reply replaces the form; any other keeps it. */
  function AfterFetch(current: UserData, r: Reply<ProfileRoute.ProfileView>): (d: UserData)
    ensures r.Success? ==> d == Loaded(r.value)
    ensures r.Failure? ==> d == current
  {
    if r.Success? then Loaded(r.value) else current
  }

  /** The inputs that have a change handler; the email input is disabled. */
  datatype InputName = FirstName | LastName | Age | Phone | Address

  /** `handleChange`: `{ ...prev, [name]: value }`. */
  function WithInput(d: UserData, name: InputName, value: string): (r: UserData)
    ensures name == FirstName ==> r == d.(firstName := value)
    ensures name == LastName ==> r == d.(lastName := value)
    ensures name == Age ==> r == d.(age := value)
    ensures name == Phone ==> r == d.(phone := value)
    ensures name == Address ==> r == d.(address := value)
    ensures r.email == d.email
  {
    match name
    case FirstName => d.(firstName := value)
    case LastName => d.(lastName := value)
    case Age => d.(age := value)
    case Phone => d.(phone := value)
    case Address => d.(address := value)
  }

  /** The `PUT` body: both names as typed, `age` parsed or `null`, `phone` and `address` `null` when empty; no email. */
  function Payload(d: UserData): (b: ProfileRoute.ProfileBody)
    ensures b.firstName == Value(d.firstName) && b.lastName == Value(d.lastName)
    ensures d.age == "" ==> b.age == Null
    ensures d.age != "" ==> b.age == FromOption(ParseInt(d.age))
    ensures b.phone == NonEmptyOrNull(d.phone) && b.address == NonEmptyOrNull(d.address)
  {
    ProfileRoute.ProfileBody(Value(d.firstName), Value(d.lastName),
                             if d.age != "" then FromOption(ParseInt(d.age)) else Null,
                             NonEmptyOrNull(d.phone), NonEmptyOrNull(d.address))
  }

  /** The email never reaches the server: two forms that differ only in it send the same body. */
  lemma EmailNotSent(d: UserData, email: string)
    ensures Payload(d.(email := email)) == Payload(d)
  {
  }

  /**
   * Saving the form as it was loaded leaves the row unchanged when both names are set,
   * no phone or address is stored as `""`, and the name is already the full name
   * whenever both names are non-empty.
   */
  lemma SaveUnchangedKeepsRow(u: User)
    requires u.firstName.Some? && u.lastName.Some?
    requires u.phone != Some("") && u.address != Some("")
    requires u.firstName.value != "" && u.lastName.value != "" ==>
      u.name == Some(u.firstName.value + " " + u.lastName.value)
    ensures ProfileRoute.UpdatedProfile(u, Payload(Loaded(ProfileRoute.Project(u)))) == u
  {
    if u.age.Some? {
      ParseIntOfIntToString(u.age.value);
    }
  }

  /** A name missing from the row is saved back as the empty string. */
  lemma MissingNameSavedEmpty(u: User)
    requires u.firstName.None?
    ensures ProfileRoute.UpdatedProfile(u, Payload(Loaded(ProfileRoute.Project(u)))).firstName == Some("")
  {
  }

  /** The first character of each word, or nothing for an empty word, run together. */
  function Heads(words: seq<string>): (r: string)
    ensures |r| <= |words|
    ensures (forall i :: 0 <= i < |words| ==> words[i] != "") ==>
      |r| == |words| && forall i :: 0 <= i < |words| ==> r[i] == words[i][0]
  {
    if |words| == 0 then ""
    else
      assert forall i :: 1 <= i < |words| ==> words[1..][i - 1] == words[i];
      (if words[0] == "" then "" else [words[0][0]]) + Heads(words[1..])
  }

  /**
   * `initials`: the two names' first letters when both are set, else the first letters
   * of the words of the session name (at most two), else `"U"`.
   */
  function Initials(d: UserData, sessionName: Option<string>): (r: string)
    ensures d.firstName != "" && d.lastName != "" ==> r == [UpperChar(d.firstName[0]), UpperChar(d.lastName[0])]
    ensures !(d.firstName != "" && d.lastName != "") && !TruthyOpt(sessionName) ==> r == "U"
    ensures |r| <= 2
  {
    if d.firstName != "" && d.lastName != "" then ToUpper([d.firstName[0], d.lastName[0]])
    else if TruthyOpt(sessionName) then Take(ToUpper(Heads(Split(sessionName.value, ' '))), 2)
    else "U"
  }

  /** Without both names, a session name of two words gives their first letters. */
  lemma InitialsOfTwoWords(d: UserData, a: string, b: string)
    requires !(d.firstName != "" && d.lastName != "")
    requires a != "" && b != "" && ' ' !in a && ' ' !in b
    ensures Initials(d, Some(a + " " + b)) == [UpperChar(a[0]), UpperChar(b[0])]
  {
    assert a + " " + b == a + [' '] + b;
    SplitAtFirst(a, b, ' ');
    SplitWithoutSeparator(b, ' ');
    var words := Split(a + " " + b, ' ');
    assert words == [a, b];
    assert Heads(words) == [a[0]] + Heads([b]);
    assert Heads([b]) == [b[0]] + Heads([]);
  }

  /** Without both names, a session name of three or more words gives the first letters of the first two. */
  lemma InitialsOfManyWords(d: UserData, a: string, b: string, rest: string)
    requires !(d.firstName != "" && d.lastName != "")
    requires a != "" && b != "" && ' ' !in a && ' ' !in b
    ensures Initials(d, Some(a + " " + b + " " + rest)) == [UpperChar(a[0]), UpperChar(b[0])]
  {
    var words := Split(a + " " + b + " " + rest, ' ');
    assert words == [a, b] + Split(rest, ' ') by { SplitLeadingWords(a, b, rest); }
    var h := Heads(words);
    assert |h| >= 2 && h[0] == a[0] && h[1] == b[0] by { HeadsOfLeadingWords(a, b, Split(rest, ' ')); }
  }

  lemma SplitLeadingWords(a: string, b: string, rest: string)
    requires ' ' !in a && ' ' !in b
    ensures Split(a + " " + b + " " + rest, ' ') == [a, b] + Split(rest, ' ')
  {
    var tail := b + " " + rest;
    assert a + " " + b + " " + rest == a + [' '] + tail;
    assert tail == b + [' '] + rest;
    SplitAtFirst(a, tail, ' ');
    SplitAtFirst(b, rest, ' ');
  }

  lemma HeadsOfLeadingWords(a: string, b: string, ws: seq<string>)
    requires a != "" && b != ""
    ensures var h := Heads([a, b] + ws); |h| >= 2 && h[0] == a[0] && h[1] == b[0]
  {
    var words := [a, b] + ws;
    assert words[1..] == [b] + ws;
    assert words[1..][1..] == ws;
    assert Heads(words) == [a[0]] + Heads(words[1..]);
    assert Heads(words[1..]) == [b[0]] + Heads(ws);
  }

  /** Without both names, a one-word session name gives its first letter alone. */
  lemma InitialsOfOneWord(d: UserData, a: string)
    requires !(d.firstName != "" && d.lastName != "")
    requires a != "" && ' ' !in a
    ensures Initials(d, Some(a)) == [UpperChar(a[0])]
  {
    SplitWithoutSeparator(a, ' ');
    assert Heads([a]) == [a[0]] + Heads([]);
  }
}

/** The front end's form validators: each fills an error object, one key per failed rule, and
    reports the form valid exactly when the object has no keys. */
module ValidationHelpers {
  import opened Wrappers
  import opened UtilityHelpers

  /** The messages the validators put on the error object. */
  datatype Message =
    | EmailRequired | EmailMalformed | PasswordRequired | PasswordTooShort | AcceptRequired
    | FirstNameTooShort | LastNameTooShort | PasswordsDiffer

  /** The text the user sees for each message. */
  function Text(m: Message): string
  {
    match m
    case EmailRequired => "Email jest wymagany"
    case EmailMalformed => "Nieprawidłowy format email"
    case PasswordRequired => "Hasło jest wymagane"
    case PasswordTooShort => "Hasło musi mieć minimum 6 znaków"
    case AcceptRequired => "Musisz zaakceptować warunki"
    case FirstNameTooShort => "Imię musi mieć minimum 2 znaki"
    case LastNameTooShort => "Nazwisko musi mieć minimum 2 znaki"
    case PasswordsDiffer => "Hasła nie są takie same"
  }

  /** The shortest password the forms accept, in UTF-16 code units. */
  const MinPasswordLength: nat := 6

  /** The shortest trimmed first or last name the registration form accepts. */
  const MinNameLength: nat := 2

  /** The keys the validators may set on the error object. */
  datatype FormField = FirstName | LastName | Email | Password | Confirm | Accept

  /** The property name each key has on the error object. */
  function FieldName(f: FormField): string
  {
    match f
    case FirstName => "firstName"
    case LastName => "lastName"
    case Email => "email"
    case Password => "password"
    case Confirm => "confirm"
    case Accept => "accept"
  }

  /** The error object a validator fills: each key it may set is absent or holds one message. */
  datatype ErrorObject = ErrorObject(
    firstName: Option<Message>, lastName: Option<Message>, email: Option<Message>,
    password: Option<Message>, confirm: Option<Message>, accept: Option<Message>)

  /** `{}` */
  const NoErrors: ErrorObject := ErrorObject(None, None, None, None, None, None)

  /** `errors[key]`, absent as `None`. */
  function Get(errors: ErrorObject, key: FormField): Option<Message>
  {
    match key
    case FirstName => errors.firstName
    case LastName => errors.lastName
    case Email => errors.email
    case Password => errors.password
    case Confirm => errors.confirm
    case Accept => errors.accept
  }

  function Count(o: Option<Message>): nat
  {
    if o.Some? then 1 else 0
  }

  /** `Object.keys(errors).length`: no keys exactly when no key holds a message. */
  function KeyCount(errors: ErrorObject): (n: nat)
    ensures n <= 6
    ensures n == 0 <==> forall key :: Get(errors, key).None?
  {
    assert Get(errors, FirstName) == errors.firstName && Get(errors, LastName) == errors.lastName;
    assert Get(errors, Email) == errors.email && Get(errors, Password) == errors.password;
    assert Get(errors, Confirm) == errors.confirm && Get(errors, Accept) == errors.accept;
    Count(errors.firstName) + Count(errors.lastName) + Count(errors.email)
    + Count(errors.password) + Count(errors.confirm) + Count(errors.accept)
  }

  /** The e-mail rule both forms apply: an empty address is missing, any other address the pattern
      refuses is malformed. */
  function EmailRule(matches: bool, empty: bool): Option<Message>
  {
    if matches then None else if empty then Some(EmailRequired) else Some(EmailMalformed)
  }

  /** The password rule both forms apply: an empty password is missing, a short one too short. */
  function PasswordRule(longEnough: bool, empty: bool): Option<Message>
  {
    if longEnough then None else if empty then Some(PasswordRequired) else Some(PasswordTooShort)
  }

  /** The empty address never matches the pattern, so it is reported as missing. */
  lemma EmptyEmailIsMissing(email: string)
    requires email == ""
    ensures EmailRule(MatchesEmailPattern(email), email == "") == Some(EmailRequired)
  {
  }

  /** The e-mail key stays unset exactly for the well-formed addresses. */
  lemma EmailRuleCharacterized(email: string)
    ensures EmailRule(MatchesEmailPattern(email), email == "").None? <==> WellFormedAddress(email)
  {
    EmailPatternCharacterized(email);
  }

  /** The e-mail check both forms run: the message for the `email` key, if any. */
  method CheckEmail(email: string) returns (message: Option<Message>)
    ensures message == EmailRule(MatchesEmailPattern(email), email == "")
  {
    message := None;
    if email == "" {
      message := Some(EmailRequired);
    } else if !MatchesEmailPattern(email) {
      message := Some(EmailMalformed);
    }
  }

  /** The password check both forms run: the message for the `password` key, if any. */
  method CheckPassword(password: string) returns (message: Option<Message>)
    ensures message == PasswordRule(JsLength(password) >= MinPasswordLength, password == "")
  {
    message := None;
    if password == "" {
      message := Some(PasswordRequired);
    } else if JsLength(password) < MinPasswordLength {
      message := Some(PasswordTooShort);
    }
  }

  /** `validateLoginForm`: one key per failed rule; the form is valid when no key was set. */
  method ValidateLoginForm(email: string, password: string, accept: bool)
    returns (isValid: bool, errors: ErrorObject)
    ensures Get(errors, Email) == EmailRule(MatchesEmailPattern(email), email == "")
    ensures Get(errors, Password) == PasswordRule(JsLength(password) >= MinPasswordLength, password == "")
    ensures Get(errors, Accept) == if accept then None else Some(AcceptRequired)
    ensures Get(errors, FirstName).None? && Get(errors, LastName).None? && Get(errors, Confirm).None?
    ensures isValid <==> KeyCount(errors) == 0
    ensures isValid <==> MatchesEmailPattern(email) && JsLength(password) >= MinPasswordLength && accept
  {
    errors := NoErrors;
    var emailMessage := CheckEmail(email);
    errors := errors.(email := emailMessage);
    var passwordMessage := CheckPassword(password);
    errors := errors.(password := passwordMessage);
    if !accept {
      errors := errors.(accept := Some(AcceptRequired));
    }
    isValid := KeyCount(errors) == 0;
  }

  /** The registration form's fields; `accept` is the terms check box. */
  datatype RegisterForm = RegisterForm(
    firstName: string, lastName: string, email: string, password: string, confirm: string, accept: bool)

  /** A name passes when it is present and, trimmed, at least two code units long. */
  predicate NameLongEnough(name: string)
  {
    name != "" && JsLength(Trim(name)) >= MinNameLength
  }

  /** Every rule of the registration form passes. */
  predicate RegisterFormPasses(form: RegisterForm)
  {
    NameLongEnough(form.firstName) && NameLongEnough(form.lastName) && MatchesEmailPattern(form.email)
    && JsLength(form.password) >= MinPasswordLength && form.password == form.confirm && form.accept
  }

  /** How each rule of the registration form judges one form. */
  datatype Verdicts = Verdicts(
    firstNameOk: bool, lastNameOk: bool, emailOk: bool, emailEmpty: bool,
    passwordOk: bool, passwordEmpty: bool, confirmed: bool, accepted: bool)

  function Judge(form: RegisterForm): Verdicts
  {
    Verdicts(NameLongEnough(form.firstName), NameLongEnough(form.lastName),
             MatchesEmailPattern(form.email), form.email == "",
             JsLength(form.password) >= MinPasswordLength, form.password == "",
             form.password == form.confirm, form.accept)
  }

  /** The registration form's rules, key by key: the message a key holds when its rule fails. */
  function Rule(v: Verdicts, key: FormField): Option<Message>
  {
    match key
    case FirstName => if v.firstNameOk then None else Some(FirstNameTooShort)
    case LastName => if v.lastNameOk then None else Some(LastNameTooShort)
    case Email => EmailRule(v.emailOk, v.emailEmpty)
    case Password => PasswordRule(v.passwordOk, v.passwordEmpty)
    case Confirm => if v.confirmed then None else Some(PasswordsDiffer)
    case Accept => if v.accepted then None else Some(AcceptRequired)
  }

  /** Every verdict is favourable. */
  predicate AllPass(v: Verdicts)
  {
    v.firstNameOk && v.lastNameOk && v.emailOk && v.passwordOk && v.confirmed && v.accepted
  }

  lemma JudgePassesIffFormPasses(form: RegisterForm)
    ensures AllPass(Judge(form)) <==> RegisterFormPasses(form)
  {
  }

  /** No rule fails exactly when every verdict is favourable. */
  lemma NoRuleFailsIffAllPass(v: Verdicts)
    ensures (forall key :: Rule(v, key).None?) <==> AllPass(v)
  {
    if !AllPass(v) {
      var failing := if !v.firstNameOk then FirstName else if !v.lastNameOk then LastName
        else if !v.emailOk then Email else if !v.passwordOk then Password
        else if !v.confirmed then Confirm else Accept;
      assert Rule(v, failing).Some?;
    }
  }

  /** An error object that follows the rules has no keys exactly when every verdict is favourable. */
  lemma NoKeysIffAllPass(errors: ErrorObject, v: Verdicts)
    requires forall key :: Get(errors, key) == Rule(v, key)
    ensures KeyCount(errors) == 0 <==> AllPass(v)
  {
    NoRuleFailsIffAllPass(v);
  }

  /** The name check: a missing name, or one shorter than two code units once trimmed, gets the
      given message. */
  method CheckName(name: string, tooShort: Message) returns (message: Option<Message>)
    ensures message == if NameLongEnough(name) then None else Some(tooShort)
  {
    message := None;
    if name == "" || JsLength(Trim(name)) < MinNameLength {
      message := Some(tooShort);
    }
  }

  lemma EveryKeyFollowsItsRule(errors: ErrorObject, v: Verdicts)
    requires errors.firstName == Rule(v, FirstName) && errors.lastName == Rule(v, LastName)
    requires errors.email == Rule(v, Email) && errors.password == Rule(v, Password)
    requires errors.confirm == Rule(v, Confirm) && errors.accept == Rule(v, Accept)
    ensures forall key :: Get(errors, key) == Rule(v, key)
  {
  }

  /** `validateRegisterForm`: every key holds exactly what its rule says, whatever the other rules
      decide; the form is valid when no key was set, that is when every rule passes. */
  method ValidateRegisterForm(form: RegisterForm) returns (isValid: bool, errors: ErrorObject)
    ensures forall key :: Get(errors, key) == Rule(Judge(form), key)
    ensures isValid <==> KeyCount(errors) == 0
    ensures isValid <==> RegisterFormPasses(form)
  {
    errors := NoErrors;
    var firstNameMessage := CheckName(form.firstName, FirstNameTooShort);
    errors := errors.(firstName := firstNameMessage);
    var lastNameMessage := CheckName(form.lastName, LastNameTooShort);
    errors := errors.(lastName := lastNameMessage);
    var emailMessage := CheckEmail(form.email);
    errors := errors.(email := emailMessage);
    var passwordMessage := CheckPassword(form.password);
    errors := errors.(password := passwordMessage);
    if form.password != form.confirm {
      errors := errors.(confirm := Some(PasswordsDiffer));
    }
    if !form.accept {
      errors := errors.(accept := Some(AcceptRequired));
    }
    ghost var v := Judge(form);
    EveryKeyFollowsItsRule(errors, v);
    isValid := KeyCount(errors) == 0;
    NoKeysIffAllPass(errors, v);
    JudgePassesIffFormPasses(form);
  }

  /** Padding a name with white space changes nothing: only its trimmed length counts. */
  lemma PaddedNamePasses(before: string, name: string, after: string)
    requires forall k :: 0 <= k < |before| ==> IsJsSpace(before[k])
    requires forall k :: 0 <= k < |after| ==> IsJsSpace(after[k])
    requires name != [] && !IsJsSpace(name[0]) && !IsJsSpace(name[|name| - 1])
    ensures Trim(before + name + after) == name
    ensures NameLongEnough(before + name + after) <==> JsLength(name) >= MinNameLength
  {
    assert before + name + after == before + (name + after);
    TrimStartOfPadded(before, name + after);
    TrimEndOfPadded(name, after);
  }

  lemma JanEmailMatches(email: string)
    requires email == "jan@example.com"
    ensures MatchesEmailPattern(email)
  {
    assert email[3] == '@' && email[11] == '.';
    LetterAddressValid(email, 3, 11);
  }

  /** A name of two characters or more without white space at either end passes. */
  lemma UnpaddedNamePasses(name: string)
    requires |name| >= MinNameLength && !IsJsSpace(name[0]) && !IsJsSpace(name[|name| - 1])
    ensures NameLongEnough(name)
  {
    TrimOfTrimmed(name);
  }

  /** The form of a new user who fills everything in correctly passes every rule. */
  lemma CompleteRegisterFormPasses(form: RegisterForm)
    requires form == RegisterForm("Jan", "Kowalski", "jan@example.com", "password123", "password123", true)
    ensures RegisterFormPasses(form)
  {
    JanEmailMatches(form.email);
    UnpaddedNamePasses(form.firstName);
    UnpaddedNamePasses(form.lastName);
  }
}

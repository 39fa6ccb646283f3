/**
 * The client sign-up page (src/pages/ClientRegister.tsx): the password
 * checks in their order, the full name sent with the sign-up, and the error
 * message shown when the sign-up fails.
 */
module ClientRegister {
  import opened Seqs
  import opened Domain
  import opened Text

  datatype RegisterForm = RegisterForm(
    firstName: string,
    lastName: string,
    phone: string,
    email: string,
    password: string,
    confirmPassword: string)

  datatype FormField = FirstName | LastName | Phone | Email | Password | ConfirmPassword

  const MismatchMessage: string := "Пароли не совпадают"
  const TooShortMessage: string := "Пароль должен быть не менее 6 символов"
  const MinPasswordLength: nat := 6

  /** The two checks of `handleSubmit`, mismatch first; `None` lets the sign-up go ahead. */
  function PasswordProblem(f: RegisterForm): (problem: Option<string>)
    ensures problem.None? <==> f.password == f.confirmPassword && |f.password| >= MinPasswordLength
    ensures f.password != f.confirmPassword ==> problem == Some(MismatchMessage)
    ensures f.password == f.confirmPassword && |f.password| < MinPasswordLength ==> problem == Some(TooShortMessage)
  {
    if f.password != f.confirmPassword then Some(MismatchMessage)
    else if |f.password| < MinPasswordLength then Some(TooShortMessage)
    else None
  }

  /** `` `${firstName} ${lastName}`.trim() ``. */
  function FullName(firstName: string, lastName: string): (name: string)
    ensures IsTrimmed(name)
    ensures |name| <= |firstName| + 1 + |lastName|
  {
    var joined := firstName + " " + lastName;
    TrimNoLonger(joined);
    Trim(joined)
  }

  /** Two trimmed, non-empty names are joined by one space. */
  lemma FullNameOfTwoNames(firstName: string, lastName: string)
    requires firstName != "" && lastName != "" && IsTrimmed(firstName) && IsTrimmed(lastName)
    ensures FullName(firstName, lastName) == firstName + " " + lastName
  {
    var s := firstName + " " + lastName;
    assert s[0] == firstName[0] && s[|s| - 1] == lastName[|lastName| - 1];
    TrimTrimmed(s);
  }

  /** With only a last name, the separating space is trimmed away. */
  lemma FullNameOfLastNameOnly(lastName: string)
    requires lastName != "" && IsTrimmed(lastName)
    ensures FullName("", lastName) == lastName
  {
    assert "" + " " + lastName == " " + lastName;
    TrimAfterSpace(lastName);
  }

  /** The `signUp` call: credentials plus the `full_name` and `phone` metadata. */
  datatype SignUpRequest = SignUpRequest(email: string, password: string, fullName: string, phone: string)

  const AlreadyRegisteredMessage: string := "Этот email уже зарегистрирован"

  /** The toast for a failed sign-up: the known duplicate-email case, else the store's message, else a generic one. */
  function SignUpErrorMessage(message: string): (shown: string)
    ensures Contains(message, "already registered") ==> shown == AlreadyRegisteredMessage
    ensures !Contains(message, "already registered") && message != "" ==> shown == message
    ensures shown != ""
  {
    if Contains(message, "already registered") then AlreadyRegisteredMessage
    else if message != "" then message
    else "Ошибка регистрации"
  }

  /** The page's state: the form and the `isLoading` flag. */
  class RegisterPage {
    var form: RegisterForm
    var isLoading: bool

    constructor ()
      ensures form == RegisterForm("", "", "", "", "", "") && !isLoading
    {
      form := RegisterForm("", "", "", "", "", "");
      isLoading := false;
    }

    /** `handleChange`: one field takes the input's value. */
    method HandleChange(field: FormField, value: string)
      modifies this
      ensures isLoading == old(isLoading)
      ensures form == match field
        case FirstName => old(form).(firstName := value)
        case LastName => old(form).(lastName := value)
        case Phone => old(form).(phone := value)
        case Email => old(form).(email := value)
        case Password => old(form).(password := value)
        case ConfirmPassword => old(form).(confirmPassword := value)
    {
      match field
      case FirstName => form := form.(firstName := value);
      case LastName => form := form.(lastName := value);
      case Phone => form := form.(phone := value);
      case Email => form := form.(email := value);
      case Password => form := form.(password := value);
      case ConfirmPassword => form := form.(confirmPassword := value);
    }

    /**
     * `handleSubmit`: the checks return early with their toast; otherwise the
     * sign-up is sent (`signUpError` is the store's answer) and `isLoading`
     * ends false either way. `navigate` is the route the page moves to.
     */
    method HandleSubmit(signUpError: Option<string>)
      returns (toast: Toast, request: Option<SignUpRequest>, navigate: Option<string>)
      modifies this
      ensures form == old(form)
      ensures request.Some? <==> PasswordProblem(form).None?
      ensures PasswordProblem(form).Some? ==>
        toast == Failure(PasswordProblem(form).value) && navigate.None? && isLoading == old(isLoading)
      ensures request.Some? ==>
        request.value == SignUpRequest(form.email, form.password, FullName(form.firstName, form.lastName), form.phone) &&
        !isLoading
      ensures request.Some? && signUpError.None? ==>
        toast == Success("Регистрация успешна! Добро пожаловать!") && navigate == Some("/client")
      ensures request.Some? && signUpError.Some? ==>
        toast == Failure(SignUpErrorMessage(signUpError.value)) && navigate.None?
    {
      navigate := None;
      request := None;
      if form.password != form.confirmPassword {
        toast := Failure(MismatchMessage);
        return;
      }
      if |form.password| < MinPasswordLength {
        toast := Failure(TooShortMessage);
        return;
      }
      isLoading := true;
      var fullName := FullName(form.firstName, form.lastName);
      request := Some(SignUpRequest(form.email, form.password, fullName, form.phone));
      if signUpError.None? {
        toast := Success("Регистрация успешна! Добро пожаловать!");
        navigate := Some("/client");
      } else {
        toast := Failure(SignUpErrorMessage(signUpError.value));
      }
      isLoading := false;
    }
  }
}

/**
 * The registration form: its five fields, the two password checks it makes before asking the
 * authentication service for an account, and the error and loading state each path leaves behind.
 */
module Register {
  import opened Wrappers
  import opened Text

  datatype FormData = FormData(name: string, email: string, phone: string, password: string, confirmPassword: string)

  const EmptyForm := FormData("", "", "", "", "")

  datatype Field = Name | Email | Phone | Password | ConfirmPassword

  /** `setFormData(prev => ({ ...prev, [field]: value }))`: only the named field changes. */
  function WithField(form: FormData, field: Field, value: string): (r: FormData)
    ensures r.name == (if field == Name then value else form.name)
    ensures r.email == (if field == Email then value else form.email)
    ensures r.phone == (if field == Phone then value else form.phone)
    ensures r.password == (if field == Password then value else form.password)
    ensures r.confirmPassword == (if field == ConfirmPassword then value else form.confirmPassword)
  {
    match field
    case Name => form.(name := value)
    case Email => form.(email := value)
    case Phone => form.(phone := value)
    case Password => form.(password := value)
    case ConfirmPassword => form.(confirmPassword := value)
  }

  const PasswordsDiffer := "Passwords do not match"
  const PasswordTooShort := "Password must be at least 6 characters"

  /** The minimum password length, counted in UTF-16 code units as `String.length` counts. */
  const MinPasswordLength := 6

  /**
   * The checks before sign-up, in their order: the confirmation must equal the password, then the
   * password must be at least six code units long. A form failing both reports the mismatch.
   */
  function Validate(form: FormData): (error: Option<string>)
    ensures error == Some(PasswordsDiffer) <==> form.password != form.confirmPassword
    ensures error == Some(PasswordTooShort) <==>
      form.password == form.confirmPassword && Utf16Length(form.password) < MinPasswordLength
    ensures error.None? <==> form.password == form.confirmPassword && Utf16Length(form.password) >= MinPasswordLength
  {
    if form.password != form.confirmPassword then Some(PasswordsDiffer)
    else if Utf16Length(form.password) < MinPasswordLength then Some(PasswordTooShort)
    else None
  }

  /** The arguments of `signUp(email, password, name, phone)`. */
  datatype SignUpCall = SignUpCall(email: string, password: string, name: string, phone: string)

  class RegisterForm {
    var form: FormData
    var loading: bool
    var error: string

    constructor ()
      ensures form == EmptyForm && !loading && error == ""
    {
      form, loading, error := EmptyForm, false, "";
    }

    method HandleInputChange(field: Field, value: string)
      modifies this`form
      ensures form == WithField(old(form), field, value)
    {
      form := WithField(form, field, value);
    }

    /**
     * Submits the form. `reply` is what the authentication service answers a sign-up (the message of
     * its error, or None when it reports none); it is consulted only when the checks pass. Returns the
     * sign-up call made, if any. Every path ends with `loading` false.
     */
    method HandleSubmit(reply: Option<string>) returns (call: Option<SignUpCall>)
      modifies this`loading, this`error
      ensures !loading
      ensures Validate(form).Some? ==> call.None? && error == Validate(form).value
      ensures Validate(form).None? ==>
        call == Some(SignUpCall(form.email, form.password, form.name, form.phone)) && error == reply.GetOr("")
    {
      loading := true;
      error := "";
      if form.password != form.confirmPassword {
        error := PasswordsDiffer;
        loading := false;
        return None;
      }
      if Utf16Length(form.password) < MinPasswordLength {
        error := PasswordTooShort;
        loading := false;
        return None;
      }
      call := Some(SignUpCall(form.email, form.password, form.name, form.phone));
      if reply.Some? {
        error := reply.value;
      }
      loading := false;
    }
  }
}

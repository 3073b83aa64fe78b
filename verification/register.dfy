/** The registration form: five text fields, the password checks made before anything is
    sent, and the hand-off to the session's `register`. */
module Register {
  import opened Common
  import opened Api
  import Backend
  import AuthContext

  const MismatchError: string := "Las contraseñas no coinciden"
  const TooShortError: string := "La contraseña debe tener al menos 6 caracteres"
  const MinPasswordLength: nat := 6

  /** The form's checks, in the order the form makes them: the confirmation must match
      first, then the password must be at least six UTF-16 units long. */
  function PasswordError(password: string, confirmPassword: string): (err: Option<string>)
    ensures password != confirmPassword ==> err == Some(MismatchError)
    ensures password == confirmPassword && Utf16Length(password) < MinPasswordLength ==> err == Some(TooShortError)
    ensures err == None <==> password == confirmPassword && Utf16Length(password) >= MinPasswordLength
  {
    if password != confirmPassword then Some(MismatchError)
    else if Utf16Length(password) < MinPasswordLength then Some(TooShortError)
    else None
  }

  /** `.length` counts UTF-16 units, so three characters outside the Basic Multilingual
      Plane already pass the length check. */
  lemma {:induction false} ThreeAstralCharactersSuffice(password: string)
    requires |password| == 3 && forall i :: 0 <= i < |password| ==> password[i] as int > 0xFFFF
    ensures PasswordError(password, password) == None
  {
    assert password[1..][1..] == password[2..];
    assert Utf16Length(password[2..]) == 2;
    assert Utf16Length(password[1..]) == 4;
  }

  /** The inputs of the form, by their `name`. */
  datatype Field = Username | Email | Password | ConfirmPassword | Bio

  class RegisterForm {
    var username: string
    var email: string
    var password: string
    var confirmPassword: string
    var bio: string
    var error: string
    var loading: bool

    constructor()
      ensures username == "" && email == "" && password == "" && confirmPassword == "" && bio == ""
      ensures error == "" && !loading
    {
      username, email, password, confirmPassword, bio := "", "", "", "", "";
      error, loading := "", false;
    }

    /** `handleChange`: the named input takes the new value; nothing else changes. */
    method HandleChange(field: Field, value: string)
      modifies this
      ensures username == (if field == Username then value else old(username))
      ensures email == (if field == Email then value else old(email))
      ensures password == (if field == Password then value else old(password))
      ensures confirmPassword == (if field == ConfirmPassword then value else old(confirmPassword))
      ensures bio == (if field == Bio then value else old(bio))
      ensures error == old(error) && loading == old(loading)
    {
      match field {
        case Username => username := value;
        case Email => email := value;
        case Password => password := value;
        case ConfirmPassword => confirmPassword := value;
        case Bio => bio := value;
      }
    }

    /** `handleSubmit`: a failed password check shows its message and sends nothing;
        otherwise the session registers with the four fields (its outcome is `outcome`), the
        error shows what it reported, and loading ends false. The form fields never change. */
    method HandleSubmit(session: AuthContext.AuthProvider, outcome: Outcome<AuthData>)
      returns (request: Option<Backend.RegisterRequest>)
      requires session.Valid()
      modifies this, session
      ensures session.Valid()
      ensures username == old(username) && email == old(email) && bio == old(bio)
      ensures password == old(password) && confirmPassword == old(confirmPassword)
      ensures PasswordError(old(password), old(confirmPassword)).Some? ==>
        && request == None
        && error == PasswordError(old(password), old(confirmPassword)).value
        && loading == old(loading)
        && unchanged(session)
      ensures PasswordError(old(password), old(confirmPassword)).None? ==>
        && request == Some(Backend.RegisterRequest(Some(old(username)), Some(old(email)), Some(old(password)), Some(old(bio))))
        && !loading
      ensures PasswordError(old(password), old(confirmPassword)).None? && outcome.Success? ==>
        && error == ""
        && session.user == Some(outcome.data.user)
        && session.token == Some(outcome.data.accessToken)
      ensures PasswordError(old(password), old(confirmPassword)).None? && outcome.Failure? ==>
        && error == OrElse(outcome.serverError, AuthContext.RegisterFallback)
        && unchanged(session)
    {
      error := "";
      var check := PasswordError(password, confirmPassword);
      if check.Some? {
        error := check.value;
        return None;
      }
      loading := true;
      var payload, err := session.Register(username, email, password, Some(bio), outcome);
      request := Some(payload);
      if err.Some? {
        error := err.value;
      }
      loading := false;
    }
  }
}

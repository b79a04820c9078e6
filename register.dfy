/**
 * The registration form of the client: its fields, the checks made when it
 * is submitted, the signup request it then sends, and what it does with the
 * server's answer. The HTTP request itself is the value Submit returns; the
 * answer comes back through SignupSucceeded or SignupFailed.
 */
module Register {
  import opened Wrappers

  const MinPasswordLength: nat := 6
  const MismatchError: string := "Passwords do not match"
  const TooShortError: string := "Password must be at least 6 characters long"
  const FallbackError: string := "Registration failed. Please try again."

  /**
   * The `length` of a JavaScript string: UTF-16 code units, so a character
   * outside the Basic Multilingual Plane counts twice.
   */
  function Utf16Length(s: string): (n: nat)
    ensures |s| <= n <= 2 * |s|
    ensures (forall i :: 0 <= i < |s| ==> s[i] as int < 0x1_0000) ==> n == |s|
  {
    if s == [] then 0
    else (if s[0] as int < 0x1_0000 then 1 else 2) + Utf16Length(s[1..])
  }

  /**
   * The two checks of a submit, in order: the confirmation must match, then
   * the password must be long enough. None when both pass.
   */
  function CheckPasswords(password: string, password2: string): (r: Option<string>)
    ensures r == Some(MismatchError) <==> password != password2
    ensures r == Some(TooShortError) <==> password == password2 && Utf16Length(password) < MinPasswordLength
    ensures r.None? <==> password == password2 && Utf16Length(password) >= MinPasswordLength
    ensures password == password2 && |password| >= MinPasswordLength ==> r.None?
  {
    if password != password2 then Some(MismatchError)
    else if Utf16Length(password) < MinPasswordLength then Some(TooShortError)
    else None
  }

  /** The body of POST /api/auth/signup; the confirmation is not part of it. */
  datatype SignupRequest = SignupRequest(username: string, email: string, password: string)

  datatype Field = Username | Email | Password | Password2

  class RegisterForm {
    var username: string
    var email: string
    var password: string
    var password2: string
    var error: string
    var loading: bool
    /** The browser's stored token, `localStorage` key "token". */
    var storedToken: Option<string>
    /** Where the client has navigated to after a successful signup. */
    var location: Option<string>

    constructor ()
      ensures username == "" && email == "" && password == "" && password2 == ""
      ensures error == "" && !loading && storedToken.None? && location.None?
    {
      username, email, password, password2 := "", "", "", "";
      error, loading := "", false;
      storedToken, location := None, None;
    }

    /** An edit of one input: that field takes the new value. */
    method OnChange(field: Field, value: string)
      modifies this
      ensures username == (if field == Username then value else old(username))
      ensures email == (if field == Email then value else old(email))
      ensures password == (if field == Password then value else old(password))
      ensures password2 == (if field == Password2 then value else old(password2))
      ensures error == old(error) && loading == old(loading)
      ensures storedToken == old(storedToken) && location == old(location)
    {
      match field
      case Username => username := value;
      case Email => email := value;
      case Password => password := value;
      case Password2 => password2 := value;
    }

    /**
     * A submit: the error is cleared, then the checks run; a failed check
     * shows its message and sends nothing, otherwise the form starts loading
     * and sends the signup request.
     */
    method Submit() returns (request: Option<SignupRequest>)
      modifies this
      ensures username == old(username) && email == old(email)
      ensures password == old(password) && password2 == old(password2)
      ensures storedToken == old(storedToken) && location == old(location)
      ensures request.None? <==> CheckPasswords(password, password2).Some?
      ensures request.None? ==> error == CheckPasswords(password, password2).value && loading == old(loading)
      ensures request.Some? ==> request.value == SignupRequest(username, email, password) && error == "" && loading
    {
      error := "";
      var check := CheckPasswords(password, password2);
      if check.Some? {
        error := check.value;
        return None;
      }
      loading := true;
      request := Some(SignupRequest(username, email, password));
    }

    /** The server accepted the signup: the token is stored and the client goes home. */
    method SignupSucceeded(token: string)
      modifies this
      ensures storedToken == Some(token) && location == Some("/")
      ensures username == old(username) && email == old(email)
      ensures password == old(password) && password2 == old(password2)
      ensures error == old(error) && loading == old(loading)
    {
      storedToken := Some(token);
      location := Some("/");
    }

    /** The request failed: the server's message, or a fallback, is shown and loading stops. */
    method SignupFailed(serverMessage: Option<string>)
      modifies this
      ensures serverMessage.Some? && serverMessage.value != "" ==> error == serverMessage.value
      ensures serverMessage.None? || serverMessage.value == "" ==> error == FallbackError
      ensures !loading
      ensures username == old(username) && email == old(email)
      ensures password == old(password) && password2 == old(password2)
      ensures storedToken == old(storedToken) && location == old(location)
    {
      if serverMessage.Some? && serverMessage.value != "" {
        error := serverMessage.value;
      } else {
        error := FallbackError;
      }
      loading := false;
    }
  }
}

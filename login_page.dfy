/** The admin dashboard's sign-in form: phone and password checks, then the login request. */
module LoginPage {
  import opened Js

  const PhoneRequired := "Phone number is required"
  const PhoneInvalid := "Enter a valid 10-digit phone number"
  const PasswordRequired := "Password is required"
  const PasswordTooShort := "Password must be at least 6 characters long"
  const MinPasswordLength := 6
  const LoginFailed := "Login failed"
  const LoginSucceeded := "Login successful!"

  /** The form's `errors` record; an empty string means that field has no error. */
  datatype Errors = Errors(phone: string, password: string)

  const NoErrors := Errors("", "")

  /** What the pattern `^\d{10}$` accepts: exactly ten ASCII digits. */
  predicate IsTenDigits(s: string) {
    |s| == 10 && forall i :: 0 <= i < |s| ==> IsAsciiDigit(s[i])
  }

  /** The form is acceptable: a ten-digit phone and a password whose `length` (in UTF-16
      code units) is at least six. */
  predicate Acceptable(phone: string, password: string) {
    IsTenDigits(phone) && Utf16Length(password) >= MinPasswordLength
  }

  /** The messages `validate` leaves for a phone and a password. Each message is fixed by its
      own field alone; of the two phone messages, an empty phone gets the "required" one. */
  ghost predicate ErrorsFor(e: Errors, phone: string, password: string) {
    && (phone == "" ==> e.phone == PhoneRequired)
    && (phone != "" && !IsTenDigits(phone) ==> e.phone == PhoneInvalid)
    && (IsTenDigits(phone) ==> e.phone == "")
    && (password == "" ==> e.password == PasswordRequired)
    && (0 < Utf16Length(password) < MinPasswordLength ==> e.password == PasswordTooShort)
    && (Utf16Length(password) >= MinPasswordLength ==> e.password == "")
  }

  /** ErrorsFor pins the record down completely. */
  lemma ErrorsForIsFunctional(e1: Errors, e2: Errors, phone: string, password: string)
    requires ErrorsFor(e1, phone, password) && ErrorsFor(e2, phone, password)
    ensures e1 == e2
  {
  }

  /** The body of `validate`: an `isValid` flag and a `newErrors` record filled by two
      if/else-if chains. */
  method ComputeErrors(phone: string, password: string) returns (isValid: bool, newErrors: Errors)
    ensures ErrorsFor(newErrors, phone, password)
    ensures isValid <==> Acceptable(phone, password)
    ensures isValid <==> newErrors == NoErrors
  {
    isValid := true;
    newErrors := NoErrors;

    if phone == "" {
      newErrors := newErrors.(phone := PhoneRequired);
      isValid := false;
    } else if !IsTenDigits(phone) {
      newErrors := newErrors.(phone := PhoneInvalid);
      isValid := false;
    }

    if password == "" {
      newErrors := newErrors.(password := PasswordRequired);
      isValid := false;
    } else if Utf16Length(password) < MinPasswordLength {
      newErrors := newErrors.(password := PasswordTooShort);
      isValid := false;
    }
  }

  /** The length rule counts UTF-16 code units: three characters above U+FFFF make a
      password of length six, which passes. */
  lemma AstralPasswordLongEnough()
    ensures var password := "\U{1F600}\U{1F600}\U{1F600}";
            |password| == 3 && Acceptable("0123456789", password)
  {
    var password := "\U{1F600}\U{1F600}\U{1F600}";
    assert password[1..][1..][1..] == [];
  }

  /** The login request's JSON body. */
  datatype Credentials = Credentials(phone: string, password: string)

  /** How the login request ended: it threw with a message, or the server replied. */
  datatype LoginReply =
    | NetworkError(error: string)
    | Responded(ok: bool, message: Option<string>, accessToken: string)

  /** What the submit handler did: nothing was sent, an alert reported a failure, or the
      token was stored, "Login successful!" shown and the browser sent to "/". */
  datatype Outcome = NotSent | Failed(alert: string) | SignedIn(token: string)

  class Page {
    var phone: string
    var password: string
    var errors: Errors
    var loading: bool

    constructor ()
      ensures phone == "" && password == "" && errors == NoErrors && !loading
    {
      phone, password, errors, loading := "", "", NoErrors, false;
    }

    method EditPhone(value: string)
      modifies this`phone
      ensures phone == value
    {
      phone := value;
    }

    method EditPassword(value: string)
      modifies this`password
      ensures password == value
    {
      password := value;
    }

    /** `handleSubmit`: validate and commit the errors; an invalid form sends nothing.
        Otherwise the credentials are posted and the token is kept only on an OK reply. */
    method HandleSubmit(reply: LoginReply) returns (request: Option<Credentials>, outcome: Outcome)
      modifies this`errors, this`loading
      ensures ErrorsFor(errors, phone, password)
      ensures request.Some? <==> Acceptable(phone, password)
      ensures request.Some? ==> request.value == Credentials(phone, password) && !loading
      ensures request.None? ==> outcome == NotSent && loading == old(loading)
      ensures outcome.SignedIn? <==> request.Some? && reply.Responded? && reply.ok
      ensures outcome.SignedIn? ==> outcome.token == reply.accessToken
      ensures request.Some? && reply.Responded? && !reply.ok ==>
                outcome == Failed(OrElse(reply.message, LoginFailed))
      ensures request.Some? && reply.NetworkError? ==> outcome == Failed(reply.error)
    {
      var isValid, newErrors := ComputeErrors(phone, password);
      errors := newErrors;
      if !isValid {
        return None, NotSent;
      }
      request := Some(Credentials(phone, password));
      loading := true;
      match reply {
        case NetworkError(error) =>
          outcome := Failed(error);
        case Responded(ok, message, token) =>
          if !ok {
            outcome := Failed(OrElse(message, LoginFailed));
          } else {
            outcome := SignedIn(token);
          }
      }
      loading := false;
    }
  }
}

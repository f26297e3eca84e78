/** The mobile app's sign-in screen: a required-fields check that the login button never uses. */
module LoginScreen {
  import opened Js

  const UsernameRequired := "Username is required"
  const PasswordRequired := "Password is required"
  /** The route the login button opens. */
  const MainRoute := "Main"

  /** The keys `validateForm` may write into its error record. */
  datatype Field = Phone | Password

  /** The errors `validateForm` records: a key is present exactly when its trimmed field is empty. */
  ghost predicate ErrorsFor(e: map<Field, string>, phone: string, password: string) {
    && (Phone in e <==> Blank(phone))
    && (Phone in e ==> e[Phone] == UsernameRequired)
    && (Password in e <==> Blank(password))
    && (Password in e ==> e[Password] == PasswordRequired)
  }

  /** The body of `validateForm` up to committing the errors. */
  method ComputeErrors(phone: string, password: string) returns (valid: bool, newErrors: map<Field, string>)
    ensures ErrorsFor(newErrors, phone, password)
    ensures valid <==> newErrors == map[]
    ensures valid <==> !Blank(phone) && !Blank(password)
  {
    var noPhone := TrimmedEmpty(phone);
    var noPassword := TrimmedEmpty(password);
    newErrors := map[];
    if noPhone {
      newErrors := newErrors[Phone := UsernameRequired];
    }
    if noPassword {
      newErrors := newErrors[Password := PasswordRequired];
    }
    valid := |newErrors| == 0;
  }

  class Screen {
    var errors: map<Field, string>

    constructor ()
      ensures errors == map[]
    {
      errors := map[];
    }

    /** `validateForm`: records the errors and reports whether there were none. */
    method ValidateForm(phone: string, password: string) returns (valid: bool)
      modifies this`errors
      ensures ErrorsFor(errors, phone, password)
      ensures valid <==> errors == map[]
    {
      var newErrors;
      valid, newErrors := ComputeErrors(phone, password);
      errors := newErrors;
    }

    /** `handleLogin`: it opens the main screen whatever was typed. It may change nothing,
        so in particular it never records validation errors. */
    method HandleLogin(phone: string, password: string) returns (route: string)
      ensures route == MainRoute
    {
      route := MainRoute;
    }
  }
}

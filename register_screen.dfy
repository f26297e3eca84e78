/** The mobile app's registration screen: the field checks and the sign-up request. */
module RegisterScreen {
  import opened Js
  import opened Records

  const FullNameRequired := "Full Name is required"
  const EmailRequired := "Email is required"
  const PhoneRequired := "Phone number is required"
  const PasswordRequired := "Password is required"
  const ConfirmRequired := "Confirm Password is required"
  const PasswordsDiffer := "Passwords do not match"
  const GenderRequired := "Gender is required"
  const DobRequired := "Date of Birth is required"
  const AddressRequired := "Address is required"
  const RoleRequired := "Role is required"
  const LocationInvalid := "Latitude and Longitude must be valid numbers"

  /** The keys `validateForm` may write into its error record. */
  datatype Field =
    FullName | Email | Phone | Password | ConfirmPassword | Gender | Dob | Address | Role | Location

  /** The text inputs of the form, as the screen holds them. */
  datatype Inputs = Inputs(
    fullName: string,
    email: string,
    phone: string,
    password: string,
    confirmPassword: string,
    gender: string,
    dob: string,
    address: string,
    role: string)

  /** `!lat || !lng`: a zero coordinate is rejected (real numbers have no NaN). */
  predicate CoordinatesUsable(p: GeoPoint) {
    p.latitude != 0.0 && p.longitude != 0.0
  }

  /** The errors `validateForm` records. Name, email, phone, password and confirmation are
      checked after trimming; gender, date of birth, address and role only for emptiness.
      A mismatched confirmation always ends with the mismatch message, even over the
      "required" one. Every key but ConfirmPassword depends on its own field alone. */
  ghost predicate ErrorsFor(e: map<Field, string>, f: Inputs, location: GeoPoint) {
    && Entry(e, FullName, Blank(f.fullName), FullNameRequired)
    && Entry(e, Email, Blank(f.email), EmailRequired)
    && Entry(e, Phone, Blank(f.phone), PhoneRequired)
    && Entry(e, Password, Blank(f.password), PasswordRequired)
    && Entry(e, ConfirmPassword, Blank(f.confirmPassword) || f.password != f.confirmPassword,
             if f.password != f.confirmPassword then PasswordsDiffer else ConfirmRequired)
    && Entry(e, Gender, f.gender == "", GenderRequired)
    && Entry(e, Dob, f.dob == "", DobRequired)
    && Entry(e, Address, f.address == "", AddressRequired)
    && Entry(e, Role, f.role == "", RoleRequired)
    && Entry(e, Location, !CoordinatesUsable(location), LocationInvalid)
  }

  /** Key `k` is recorded exactly when `present` holds, and then with `message`. */
  ghost predicate Entry(e: map<Field, string>, k: Field, present: bool, message: string) {
    (k in e <==> present) && (k in e ==> e[k] == message)
  }

  /** The conditions under which no error is recorded. */
  predicate Complete(f: Inputs, location: GeoPoint) {
    && !Blank(f.fullName) && !Blank(f.email) && !Blank(f.phone) && !Blank(f.password)
    && !Blank(f.confirmPassword) && f.password == f.confirmPassword
    && f.gender != "" && f.dob != "" && f.address != "" && f.role != ""
    && CoordinatesUsable(location)
  }

  const TrimmedKeys := {FullName, Email, Phone, Password, ConfirmPassword}

  /** The first part of `validateForm`: the five fields that are trimmed before the check,
      the confirmation key written a second time when the passwords differ. */
  method TrimmedFieldErrors(f: Inputs) returns (e: map<Field, string>)
    ensures e.Keys <= TrimmedKeys
    ensures Entry(e, FullName, Blank(f.fullName), FullNameRequired)
    ensures Entry(e, Email, Blank(f.email), EmailRequired)
    ensures Entry(e, Phone, Blank(f.phone), PhoneRequired)
    ensures Entry(e, Password, Blank(f.password), PasswordRequired)
    ensures Entry(e, ConfirmPassword, Blank(f.confirmPassword) || f.password != f.confirmPassword,
                  if f.password != f.confirmPassword then PasswordsDiffer else ConfirmRequired)
  {
    var noName := TrimmedEmpty(f.fullName);
    var noEmail := TrimmedEmpty(f.email);
    var noPhone := TrimmedEmpty(f.phone);
    var noPassword := TrimmedEmpty(f.password);
    var noConfirm := TrimmedEmpty(f.confirmPassword);
    e := map[];
    if noName { e := e[FullName := FullNameRequired]; }
    if noEmail { e := e[Email := EmailRequired]; }
    if noPhone { e := e[Phone := PhoneRequired]; }
    if noPassword { e := e[Password := PasswordRequired]; }
    if noConfirm { e := e[ConfirmPassword := ConfirmRequired]; }
    if f.password != f.confirmPassword { e := e[ConfirmPassword := PasswordsDiffer]; }
  }

  /** The rest of `validateForm`: four fields checked only for being empty, then the
      coordinates. Entries already recorded are kept. */
  method UntrimmedFieldErrors(e0: map<Field, string>, f: Inputs, location: GeoPoint) returns (e: map<Field, string>)
    requires e0.Keys <= TrimmedKeys
    ensures forall k :: k in TrimmedKeys ==> (k in e <==> k in e0) && (k in e0 ==> e[k] == e0[k])
    ensures Entry(e, Gender, f.gender == "", GenderRequired)
    ensures Entry(e, Dob, f.dob == "", DobRequired)
    ensures Entry(e, Address, f.address == "", AddressRequired)
    ensures Entry(e, Role, f.role == "", RoleRequired)
    ensures Entry(e, Location, !CoordinatesUsable(location), LocationInvalid)
  {
    e := e0;
    if f.gender == "" { e := e[Gender := GenderRequired]; }
    if f.dob == "" { e := e[Dob := DobRequired]; }
    if f.address == "" { e := e[Address := AddressRequired]; }
    if f.role == "" { e := e[Role := RoleRequired]; }
    if !CoordinatesUsable(location) { e := e[Location := LocationInvalid]; }
  }

  /** The body of `validateForm` up to committing the errors: successive assignments into
      `newErrors`, then whether it has any key. */
  method ComputeErrors(f: Inputs, location: GeoPoint) returns (valid: bool, newErrors: map<Field, string>)
    ensures ErrorsFor(newErrors, f, location)
    ensures valid <==> newErrors == map[]
    ensures valid <==> Complete(f, location)
  {
    var trimmed := TrimmedFieldErrors(f);
    newErrors := UntrimmedFieldErrors(trimmed, f, location);
    valid := newErrors.Keys == {};
    if !valid {
      var k :| k in newErrors;
      assert k.FullName? || k.Email? || k.Phone? || k.Password? || k.ConfirmPassword?
          || k.Gender? || k.Dob? || k.Address? || k.Role? || k.Location?;
    }
  }

  /** A blank name is rejected, while any non-empty address passes, spaces only included:
      the name is trimmed before the check, the address is not. */
  lemma TrimmedAndUntrimmedChecks(e: map<Field, string>, f: Inputs, location: GeoPoint)
    requires ErrorsFor(e, f, location)
    ensures Blank(f.fullName) ==> FullName in e && e[FullName] == FullNameRequired
    ensures f.address != "" ==> Address !in e
    ensures f.fullName == " " && f.address == " " ==> FullName in e && Address !in e
  {
    if f.fullName == " " {
      assert f.fullName[1..] == [];
      assert Blank(f.fullName);
    }
  }

  /** The sign-up request's JSON body. */
  datatype SignupPayload = SignupPayload(
    full_name: string,
    email: string,
    phone: string,
    password: string,
    gender: string,
    dob: string,
    address: string,
    role: string,
    location: GeoPoint)

  /** The body `handleRegister` sends: `fullName` goes out as `full_name`, the confirmation
      stays behind, and every other field is passed under its own name. */
  function PayloadOf(f: Inputs, location: GeoPoint): (p: SignupPayload)
    ensures p.full_name == f.fullName && p.email == f.email && p.phone == f.phone && p.password == f.password
    ensures p.gender == f.gender && p.dob == f.dob && p.address == f.address && p.role == f.role
    ensures p.location == location
  {
    SignupPayload(f.fullName, f.email, f.phone, f.password, f.gender, f.dob, f.address, f.role, location)
  }

  /** Two forms give the same body exactly when they differ at most in the confirmation. */
  lemma PayloadForgetsOnlyConfirmation(f: Inputs, g: Inputs, location: GeoPoint)
    ensures PayloadOf(f, location) == PayloadOf(g, location) <==> f.(confirmPassword := "") == g.(confirmPassword := "")
  {
  }

  const FillAllFields := Alert("Error", "Please fill in all fields correctly")
  const Registered := Alert("Success", "Registration Successful!")
  const Unexpected := Alert("Error", "An error occurred. Please try again later.")

  /** The alert shown once the sign-up request has ended. */
  function ReplyAlert(reply: Reply): (a: Alert)
    ensures reply.Threw? ==> a == Unexpected
    ensures reply.Replied? && reply.ok ==> a == Registered
    ensures reply.Replied? && !reply.ok ==>
              a.title == "Error" && a.message == OrElse(reply.message, "Registration failed. Please try again.")
  {
    match reply
    case Threw => Unexpected
    case Replied(ok, message) =>
      if ok then Registered else Alert("Error", OrElse(message, "Registration failed. Please try again."))
  }

  class Screen {
    var location: GeoPoint
    var errors: map<Field, string>
    var loading: bool

    constructor ()
      ensures location == DefaultLocation && errors == map[] && !loading
    {
      location, errors, loading := DefaultLocation, map[], false;
    }

    /** `handleLocationSelect`: the picked point replaces the location. */
    method HandleLocationSelect(latitude: real, longitude: real)
      modifies this`location
      ensures location == GeoPoint(latitude, longitude)
    {
      location := GeoPoint(latitude, longitude);
    }

    /** `handleRegister`: the sign-up request goes out only for a form that passes
        `validateForm`; otherwise the only effect besides the errors is an alert. */
    method HandleRegister(f: Inputs, reply: Reply) returns (request: Option<SignupPayload>, alert: Alert, toLogin: bool)
      modifies this`errors, this`loading
      ensures ErrorsFor(errors, f, location)
      ensures request.Some? <==> Complete(f, location)
      ensures request.Some? ==> request.value == PayloadOf(f, location) && alert == ReplyAlert(reply) && !loading
      ensures request.None? ==> alert == FillAllFields && loading == old(loading)
      ensures toLogin <==> request.Some? && reply.Replied? && reply.ok
    {
      var valid, newErrors := ComputeErrors(f, location);
      errors := newErrors;
      if valid {
        request := Some(PayloadOf(f, location));
        loading := true;
        alert := ReplyAlert(reply);
        toLogin := reply.Replied? && reply.ok;
        loading := false;
      } else {
        request, alert, toLogin := None, FillAllFields, false;
      }
    }
  }
}

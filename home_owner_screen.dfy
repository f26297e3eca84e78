/** The owner's four-step wizard for listing a room: basic info, facilities, location and
    images, then the multipart request that creates the listing. */
module HomeOwnerScreen {
  import opened Js
  import opened Records

  // ---------------------------------------------------------------------------
  // The form

  datatype Facility = Wifi | Parking | DisposalCharge | Electricity | Water

  /** The facility flags, in the order the form object declares them. */
  datatype Facilities = Facilities(wifi: bool, parking: bool, disposal_charge: bool, electricity: bool, water: bool)

  const FacilityOrder := [Wifi, Parking, DisposalCharge, Electricity, Water]

  /** The property name of a facility in the form object and in the request. */
  function FacilityKey(f: Facility): string {
    match f
    case Wifi => "wifi"
    case Parking => "parking"
    case DisposalCharge => "disposal_charge"
    case Electricity => "electricity"
    case Water => "water"
  }

  function Has(fs: Facilities, f: Facility): bool {
    match f
    case Wifi => fs.wifi
    case Parking => fs.parking
    case DisposalCharge => fs.disposal_charge
    case Electricity => fs.electricity
    case Water => fs.water
  }

  /** The object spread `{...facilities, [f]: b}`. */
  function With(fs: Facilities, f: Facility, b: bool): (r: Facilities)
    ensures Has(r, f) == b
    ensures forall g :: g != f ==> Has(r, g) == Has(fs, g)
  {
    match f
    case Wifi => fs.(wifi := b)
    case Parking => fs.(parking := b)
    case DisposalCharge => fs.(disposal_charge := b)
    case Electricity => fs.(electricity := b)
    case Water => fs.(water := b)
  }

  /** The wizard's `form` state. `files` holds the picked image URIs. */
  datatype Form = Form(
    title: string,
    description: string,
    price: string,
    address: string,
    areaSize: string,
    no_of_room: int,
    room_type: string,
    room_status: string,
    facilities: Facilities,
    files: seq<string>,
    location: GeoPoint)

  const InitialForm := Form("", "", "", "", "", 1, "", "pending",
                            Facilities(false, false, false, false, false), [], DefaultLocation)

  const MaxImages := 5

  // ---------------------------------------------------------------------------
  // Validation

  const TitleRequired := "Title is required"
  const DescriptionRequired := "Description is required"
  const PriceRequired := "Valid price is required"
  const AddressRequired := "Address is required"
  const AreaSizeRequired := "Area size is required"
  const ImageRequired := "At least one image is required"

  /** The keys the two validators may write into the error record. */
  datatype Field = Title | Description | Price | Address | AreaSize | Files

  predicate DigitsOnly(s: string) {
    forall i :: 0 <= i < |s| ==> IsAsciiDigit(s[i])
  }

  /** A plain decimal numeral: digits with at most one decimal point, and at least one digit. */
  predicate IsDecimalNumeral(s: string) {
    (s != [] && DigitsOnly(s))
    || (|s| >= 2 && exists k :: 0 <= k < |s| && s[k] == '.' && DigitsOnly(s[..k]) && DigitsOnly(s[k + 1..]))
  }

  /** The price passes `!price || isNaN(price) || price <= 0` unflagged: a decimal numeral
      with a non-zero digit, so that its value is positive. */
  predicate PositivePrice(s: string) {
    IsDecimalNumeral(s) && exists i :: 0 <= i < |s| && '1' <= s[i] <= '9'
  }

  /** Key `k` is recorded exactly when `present` holds, and then with `message`. */
  ghost predicate Entry(e: map<Field, string>, k: Field, present: bool, message: string) {
    (k in e <==> present) && (k in e ==> e[k] == message)
  }

  /** The record `validateBasicInfo` builds; nothing else is in it. */
  ghost predicate BasicInfoErrorsFor(e: map<Field, string>, form: Form) {
    && e.Keys <= {Title, Description, Price, Address, AreaSize}
    && Entry(e, Title, Blank(form.title), TitleRequired)
    && Entry(e, Description, Blank(form.description), DescriptionRequired)
    && Entry(e, Price, !PositivePrice(form.price), PriceRequired)
    && Entry(e, Address, Blank(form.address), AddressRequired)
    && Entry(e, AreaSize, Blank(form.areaSize), AreaSizeRequired)
  }

  /** When `validateBasicInfo` lets the wizard move on. The room type and the number of rooms
      take no part. */
  predicate BasicInfoComplete(form: Form) {
    !Blank(form.title) && !Blank(form.description) && PositivePrice(form.price)
    && !Blank(form.address) && !Blank(form.areaSize)
  }

  /** The body of `validateBasicInfo` up to committing the record. */
  method BasicInfoErrors(form: Form) returns (valid: bool, newErrors: map<Field, string>)
    ensures BasicInfoErrorsFor(newErrors, form)
    ensures valid <==> newErrors == map[]
    ensures valid <==> BasicInfoComplete(form)
  {
    var noTitle := TrimmedEmpty(form.title);
    var noDescription := TrimmedEmpty(form.description);
    var noAddress := TrimmedEmpty(form.address);
    var noAreaSize := TrimmedEmpty(form.areaSize);
    newErrors := map[];
    if noTitle { newErrors := newErrors[Title := TitleRequired]; }
    if noDescription { newErrors := newErrors[Description := DescriptionRequired]; }
    if !PositivePrice(form.price) { newErrors := newErrors[Price := PriceRequired]; }
    if noAddress { newErrors := newErrors[Address := AddressRequired]; }
    if noAreaSize { newErrors := newErrors[AreaSize := AreaSizeRequired]; }
    valid := newErrors.Keys == {};
  }

  /** An empty room type passes: the basic-info check reads neither the room type nor the
      number of rooms, nor the facilities, the images or the location. */
  lemma BasicInfoIgnoresRoomType(form: Form, room_type: string, no_of_room: int)
    ensures BasicInfoComplete(form.(room_type := room_type, no_of_room := no_of_room))
        <==> BasicInfoComplete(form)
    ensures BasicInfoComplete(form) ==> BasicInfoComplete(form.(room_type := ""))
  {
  }

  /** The record `validateImages` builds. */
  ghost predicate ImageErrorsFor(e: map<Field, string>, form: Form) {
    e.Keys <= {Files} && Entry(e, Files, |form.files| == 0, ImageRequired)
  }

  /** The body of `validateImages` up to committing the record. */
  method ImageErrors(form: Form) returns (valid: bool, newErrors: map<Field, string>)
    ensures ImageErrorsFor(newErrors, form)
    ensures valid <==> newErrors == map[]
    ensures valid <==> |form.files| > 0
  {
    newErrors := map[];
    if |form.files| == 0 {
      newErrors := newErrors[Files := ImageRequired];
    }
    valid := newErrors.Keys == {};
  }

  // ---------------------------------------------------------------------------
  // Editing the form

  /** The text fields `handleChange` is called with. */
  datatype TextInput = TitleInput | DescriptionInput | PriceInput | AddressInput | AreaSizeInput | RoomTypeInput

  function Text(form: Form, input: TextInput): string {
    match input
    case TitleInput => form.title
    case DescriptionInput => form.description
    case PriceInput => form.price
    case AddressInput => form.address
    case AreaSizeInput => form.areaSize
    case RoomTypeInput => form.room_type
  }

  /** `handleChange(field, value)`: the spread `{...form, [field]: value}`. */
  function Changed(form: Form, input: TextInput, value: string): (r: Form)
    ensures Text(r, input) == value
    ensures forall other :: other != input ==> Text(r, other) == Text(form, other)
    ensures r.no_of_room == form.no_of_room && r.room_status == form.room_status
    ensures r.facilities == form.facilities && r.files == form.files && r.location == form.location
  {
    match input
    case TitleInput => form.(title := value)
    case DescriptionInput => form.(description := value)
    case PriceInput => form.(price := value)
    case AddressInput => form.(address := value)
    case AreaSizeInput => form.(areaSize := value)
    case RoomTypeInput => form.(room_type := value)
  }

  /** `toggleFacility(f)`: only the flag of `f` changes. */
  function Toggled(form: Form, f: Facility): (r: Form)
    ensures Has(r.facilities, f) == !Has(form.facilities, f)
    ensures forall g :: g != f ==> Has(r.facilities, g) == Has(form.facilities, g)
    ensures r == form.(facilities := r.facilities)
  {
    form.(facilities := With(form.facilities, f, !Has(form.facilities, f)))
  }

  /** Two flags that agree on every facility are the same record. */
  lemma FacilitiesExtensional(a: Facilities, b: Facilities)
    requires forall f :: Has(a, f) == Has(b, f)
    ensures a == b
  {
    assert Has(a, Wifi) == Has(b, Wifi) && Has(a, Parking) == Has(b, Parking);
    assert Has(a, DisposalCharge) == Has(b, DisposalCharge);
    assert Has(a, Electricity) == Has(b, Electricity) && Has(a, Water) == Has(b, Water);
  }

  /** Toggling the same facility twice restores the form. */
  lemma ToggleTwice(form: Form, f: Facility)
    ensures Toggled(Toggled(form, f), f) == form
  {
    var r := Toggled(Toggled(form, f), f);
    FacilitiesExtensional(r.facilities, form.facilities);
  }

  /** Toggles of different facilities commute. */
  lemma TogglesCommute(form: Form, f: Facility, g: Facility)
    ensures Toggled(Toggled(form, f), g) == Toggled(Toggled(form, g), f)
  {
    FacilitiesExtensional(Toggled(Toggled(form, f), g).facilities, Toggled(Toggled(form, g), f).facilities);
  }

  /** `handleImageSelect` followed by the picker's answer: with fewer than five files the
      picked image, if any, is appended; otherwise the form stays as it is. */
  function ImagePicked(form: Form, picked: Option<string>): (r: Form)
    ensures r == form.(files := r.files)
    ensures |form.files| < MaxImages && picked.Some? ==> r.files == form.files + [picked.value]
    ensures !(|form.files| < MaxImages && picked.Some?) ==> r.files == form.files
  {
    if |form.files| < MaxImages && picked.Some? then form.(files := form.files + [picked.value]) else form
  }

  /** The form after a run of image selections, each answered by the picker. */
  function AfterPicks(form: Form, picks: seq<Option<string>>): Form
    decreases |picks|
  {
    if picks == [] then form else AfterPicks(ImagePicked(form, picks[0]), picks[1..])
  }

  /** However many images are picked, the form never holds more than five, the earlier
      files stay in front in order, and nothing but the files changes. */
  lemma {:induction false} PicksStayCapped(form: Form, picks: seq<Option<string>>)
    requires |form.files| <= MaxImages
    ensures |AfterPicks(form, picks).files| <= MaxImages
    ensures form.files <= AfterPicks(form, picks).files
    ensures AfterPicks(form, picks) == form.(files := AfterPicks(form, picks).files)
    decreases |picks|
  {
    if picks != [] {
      var next := ImagePicked(form, picks[0]);
      PicksStayCapped(next, picks[1..]);
    }
  }

  /** Each selection adds at most one file. */
  lemma {:induction false} PicksAddAtMostOneEach(form: Form, picks: seq<Option<string>>)
    ensures |AfterPicks(form, picks).files| <= |form.files| + |picks|
    decreases |picks|
  {
    if picks != [] {
      PicksAddAtMostOneEach(ImagePicked(form, picks[0]), picks[1..]);
    }
  }

  // ---------------------------------------------------------------------------
  // The create-room request

  /** A FormData value: a string, a number, a boolean, or a file given by URI. */
  datatype Value =
    | Str(s: string)
    | Coordinate(x: real)
    | Count(n: int)
    | Flag(b: bool)
    | Photo(uri: string, name: string, mime: string)

  datatype Part = Part(name: string, value: Value)

  /** The file name the i-th picked image is sent under. */
  function PhotoName(i: nat): string {
    "photo" + DecimalString(i) + ".jpg"
  }

  /** Different images never share a file name. */
  lemma PhotoNamesDistinct(i: nat, j: nat)
    requires i != j
    ensures PhotoName(i) != PhotoName(j)
  {
    if PhotoName(i) == PhotoName(j) {
      var a, b := PhotoName(i), PhotoName(j);
      assert a[5..|a| - 4] == DecimalString(i);
      assert b[5..|b| - 4] == DecimalString(j);
      DecimalStringInjective(i, j);
    }
  }

  /** The ten scalar fields, in the order `handleSubmit` appends them. The status is always
      sent as 'available', whatever the form holds. */
  function ScalarParts(form: Form): seq<Part> {
    [ Part("title", Str(form.title)),
      Part("description", Str(form.description)),
      Part("room_type", Str(form.room_type)),
      Part("price", Str(form.price)),
      Part("latitude", Coordinate(form.location.latitude)),
      Part("longitude", Coordinate(form.location.longitude)),
      Part("address", Str(form.address)),
      Part("areaSize", Str(form.areaSize)),
      Part("room_status", Str("available")),
      Part("no_of_room", Count(form.no_of_room)) ]
  }

  function PhotoPart(files: seq<string>, i: nat): Part
    requires i < |files|
  {
    Part("files", Photo(files[i], PhotoName(i), "image/jpg"))
  }

  /** One `files` part per image, in order. */
  function PhotoParts(files: seq<string>): (ps: seq<Part>)
    ensures |ps| == |files|
  {
    if files == [] then [] else PhotoParts(files[..|files| - 1]) + [PhotoPart(files, |files| - 1)]
  }

  function FacilityPart(fs: Facilities, f: Facility): Part {
    Part(FacilityKey(f), Flag(Has(fs, f)))
  }

  /** One part per facility key, in declaration order. */
  function FacilityParts(fs: Facilities): seq<Part> {
    seq(|FacilityOrder|, j requires 0 <= j < |FacilityOrder| => FacilityPart(fs, FacilityOrder[j]))
  }

  /** The whole multipart body. */
  function FormDataOf(form: Form): seq<Part> {
    ScalarParts(form) + PhotoParts(form.files) + FacilityParts(form.facilities)
  }

  lemma {:induction false} PhotoPartsAt(files: seq<string>, i: nat)
    requires i < |files|
    ensures PhotoParts(files)[i] == PhotoPart(files, i)
  {
    if i < |files| - 1 {
      var init := files[..|files| - 1];
      PhotoPartsAt(init, i);
      assert PhotoPart(init, i) == PhotoPart(files, i);
    }
  }

  /** The body holds 15 parts besides the images; the status part says 'available'; the i-th
      image goes out as photo<i>.jpg right after the scalars; and every facility has its part. */
  lemma FormDataShape(form: Form)
    ensures |FormDataOf(form)| == 15 + |form.files|
    ensures FormDataOf(form)[8] == Part("room_status", Str("available"))
    ensures forall i :: 0 <= i < |form.files| ==>
              FormDataOf(form)[10 + i] == Part("files", Photo(form.files[i], PhotoName(i), "image/jpg"))
    ensures forall j :: 0 <= j < 5 ==>
              FormDataOf(form)[10 + |form.files| + j] == FacilityPart(form.facilities, FacilityOrder[j])
  {
    forall i | 0 <= i < |form.files|
      ensures FormDataOf(form)[10 + i] == Part("files", Photo(form.files[i], PhotoName(i), "image/jpg"))
    {
      PhotoPartsAt(form.files, i);
    }
  }

  /** The status held by the form never reaches the request. */
  lemma FormDataIgnoresRoomStatus(form: Form, status: string)
    ensures FormDataOf(form.(room_status := status)) == FormDataOf(form)
  {
  }

  /** `handleSubmit`'s FormData assembly: the scalars, then a `forEach` over the files when
      there are any, then a `forEach` over the facility keys. */
  method BuildFormData(form: Form) returns (parts: seq<Part>)
    ensures parts == FormDataOf(form)
  {
    parts := ScalarParts(form);
    if |form.files| > 0 {
      var i := 0;
      while i < |form.files|
        invariant 0 <= i <= |form.files|
        invariant parts == ScalarParts(form) + PhotoParts(form.files[..i])
      {
        assert form.files[..i + 1][..i] == form.files[..i];
        parts := parts + [Part("files", Photo(form.files[i], PhotoName(i), "image/jpg"))];
        i := i + 1;
      }
      assert form.files[..|form.files|] == form.files;
    }
    var j := 0;
    while j < |FacilityOrder|
      invariant 0 <= j <= |FacilityOrder|
      invariant parts == ScalarParts(form) + PhotoParts(form.files) + FacilityParts(form.facilities)[..j]
    {
      var key := FacilityOrder[j];
      parts := parts + [Part(FacilityKey(key), Flag(Has(form.facilities, key)))];
      j := j + 1;
    }
  }

  /** The create-room request: the bearer header and the multipart body. */
  datatype CreateRoom = CreateRoom(authorization: string, body: seq<Part>)

  const UserMissing := Alert("Error", "User not found. Please login again.")
  const MaxLimit := Alert("Max Limit", "You can only upload up to 5 images.")
  const Listed := Alert("Success", "Room listed successfully!")
  const ListingFailed := Alert("Error", "Failed to list the room. Please try again.")

  /** The alert shown once the create-room request has ended. */
  function SubmitAlert(reply: Reply): (a: Alert)
    ensures reply.Threw? ==> a == ListingFailed
    ensures reply.Replied? && reply.ok ==> a == Listed
    ensures reply.Replied? && !reply.ok ==> a == Alert("Error", OrElse(reply.message, "Something went wrong"))
  {
    match reply
    case Threw => ListingFailed
    case Replied(ok, message) =>
      if ok then Listed else Alert("Error", OrElse(message, "Something went wrong"))
  }

  // ---------------------------------------------------------------------------
  // The screen

  class Screen {
    var step: int
    var user: Option<Session>
    var loading: bool
    var form: Form
    var errors: map<Field, string>

    /** The step is one of the four tabs and at most five images are held. */
    ghost predicate Valid()
      reads this
    {
      1 <= step <= 4 && |form.files| <= MaxImages
    }

    constructor ()
      ensures Valid()
      ensures step == 1 && user.None? && !loading && form == InitialForm && errors == map[]
    {
      step, user, loading, form, errors := 1, None, false, InitialForm, map[];
    }

    /** The mount effect: the user read back from storage, or none. */
    method UserLoaded(stored: Option<Session>)
      modifies this`user
      ensures user == stored
    {
      user := stored;
    }

    /** The four tab buttons and the Back/Next buttons of steps 2 to 4: `setStep(s)` with no check. */
    method SelectStep(s: int)
      requires Valid()
      requires 1 <= s <= 4
      modifies this`step
      ensures Valid()
      ensures step == s
    {
      step := s;
    }

    /** The Next button of step 1: `validateBasicInfo() && setStep(2)`. The error record is
        replaced, not merged, and the step moves on only when the record is empty. */
    method NextFromBasicInfo() returns (valid: bool)
      requires Valid()
      modifies this`errors, this`step
      ensures Valid()
      ensures BasicInfoErrorsFor(errors, form) && (valid <==> BasicInfoComplete(form))
      ensures step == if valid then 2 else old(step)
    {
      var newErrors;
      valid, newErrors := BasicInfoErrors(form);
      errors := newErrors;
      if valid {
        step := 2;
      }
    }

    /** `validateImages`: replaces the record with the image check alone. */
    method ValidateImages() returns (valid: bool)
      modifies this`errors
      ensures ImageErrorsFor(errors, form) && (valid <==> |form.files| > 0)
    {
      var newErrors;
      valid, newErrors := ImageErrors(form);
      errors := newErrors;
    }

    method HandleChange(input: TextInput, value: string)
      requires Valid()
      modifies this`form
      ensures Valid()
      ensures form == Changed(old(form), input, value)
    {
      form := Changed(form, input, value);
    }

    /** `handleChange('no_of_room', Number(text))`, the number already parsed. */
    method SetRoomCount(n: int)
      requires Valid()
      modifies this`form
      ensures Valid()
      ensures form == old(form).(no_of_room := n)
    {
      form := form.(no_of_room := n);
    }

    method ToggleFacility(f: Facility)
      requires Valid()
      modifies this`form
      ensures Valid()
      ensures form == Toggled(old(form), f)
    {
      form := Toggled(form, f);
    }

    /** `handleImageSelect`, given what the picker answered: with five files the picker is not
        opened and the limit alert is shown instead. */
    method HandleImageSelect(picked: Option<string>) returns (alert: Option<Alert>)
      requires Valid()
      modifies this`form
      ensures Valid()
      ensures form == ImagePicked(old(form), picked)
      ensures alert.Some? <==> |old(form).files| >= MaxImages
      ensures alert.Some? ==> alert.value == MaxLimit
    {
      if |form.files| < MaxImages {
        if picked.Some? {
          form := form.(files := form.files + [picked.value]);
        }
        alert := None;
      } else {
        alert := Some(MaxLimit);
      }
    }

    /** `handleLocationSelect`: the coordinates are replaced and the wizard goes to step 3. */
    method HandleLocationSelect(latitude: real, longitude: real)
      requires Valid()
      modifies this`form, this`step
      ensures Valid()
      ensures form == old(form).(location := GeoPoint(latitude, longitude)) && step == 3
    {
      form := form.(location := GeoPoint(latitude, longitude));
      step := 3;
    }

    /** `handleSubmit`: with no stored user nothing is sent. Otherwise the body is assembled,
        sent with the user's token, and `loading` is back to false whatever the reply. */
    method HandleSubmit(reply: Reply) returns (request: Option<CreateRoom>, alert: Alert)
      requires Valid()
      modifies this`loading
      ensures Valid()
      ensures request.Some? <==> user.Some?
      ensures user.None? ==> alert == UserMissing && loading == old(loading)
      ensures user.Some? ==> request.value == CreateRoom("Bearer " + user.value.accessToken, FormDataOf(form))
                             && alert == SubmitAlert(reply) && !loading
    {
      if user.None? {
        return None, UserMissing;
      }
      var parts := BuildFormData(form);
      request := Some(CreateRoom("Bearer " + user.value.accessToken, parts));
      loading := true;
      alert := SubmitAlert(reply);
      loading := false;
    }
  }
}

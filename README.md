# Room Finder: a Dafny model of its screens' logic

Room Finder is a room-rental system with two front ends. The admin dashboard is a React
web app: admins sign in there and moderate flat listings. The mobile app is in React
Native: tenants search and book rooms there, and home owners list rooms and follow their
bookings. This project models the logic inside those screens:

- the form validators (sign-in on both apps, registration, the listing wizard);
- the list filters (search, explore, the owner's dashboard, pending, booked, the admin's
  flat and room tabs);
- the state the handlers keep (the listing wizard, the decline popup, the booking request
  list, the details screen's booking flag);
- the request bodies the screens build (sign-up, the multipart listing, a booking).

Each source file is one Dafny module. Three modules are shared:

- `Js` holds the JavaScript behaviour the screens lean on: `undefined`, truthiness of a
  boolean JSON field, `trim`, `toLowerCase`, `includes`, `message || fallback` and `${n}`.
- `Seqs` holds `Array.prototype.filter` and its laws.
- `Records` holds the server's room record, the stored session, alerts and request
  outcomes.

The model follows the code's form:

- Validators that fill an error dictionary step by step are methods with those steps. The
  screen classes that hold the state commit the result.
- Filters and label choices are functions.
- Every network reply, storage read, picker answer and dialog choice is a parameter.
- Every alert, navigation and request is a result.

## Model

| member | source | states |
|---|---|---|
| Js.OrElse | room_mobile/src/screens/RegisterScreen.tsx:106 | a message-or-fallback expression gives the message exactly when it is present and non-empty, else the fallback; never empty when the fallback is not |
| Js.TrimEmptyIffBlank | room_mobile/src/screens/RegisterScreen.tsx:46-50 | `!s.trim()` holds exactly for strings made only of JavaScript white space and line terminators |
| Js.TrimmedEmpty | room_mobile/src/screens/LoginScreen.tsx:27-28 | evaluating `!s.trim()` answers whether the string is blank |
| Js.Lower | room_mobile/src/screens/SearchScreen.tsx:79-81 | `toLowerCase` keeps the length and lowers each ASCII capital, leaving every other character alone |
| Js.SameIgnoringCaseLowersEqual | room_mobile/src/screens/SearchScreen.tsx:79-81 | strings differing only in letter case lower to the same string |
| Js.IncludesIffOccurs | room_mobile/src/screens/SearchScreen.tsx:79-81 | the left-to-right `includes` scan succeeds exactly when the needle starts at some position of the haystack |
| Js.DecimalString | room_mobile/src/screens/HomeOwnerScreen.tsx:158 | `${n}` is a non-empty string of decimal digits |
| Js.DecimalStringInjective | room_mobile/src/screens/HomeOwnerScreen.tsx:158 | different indices give different decimal strings |
| Js.Utf16Length | room_admin/src/pages/Authentication/LoginPage.tsx:24 | a string's `length` counts UTF-16 code units: between its number of characters and twice that, and zero only for the empty string |
| Js.Utf16LengthOfBasicPlane | room_admin/src/pages/Authentication/LoginPage.tsx:24 | without characters above U+FFFF the `length` is the number of characters |
| Seqs.FilterMembers | room_mobile/src/screens/ExploreScreen.tsx:70 | `filter` keeps exactly the elements that pass the test |
| Seqs.FilterIsSubsequence | room_mobile/src/screens/ExploreScreen.tsx:70 | `filter` keeps the surviving elements in their original order |
| Seqs.FilterThenFilter | room_mobile/src/screens/ExploreScreen.tsx:66-77 | two filters in a row are one filter by the conjunction |
| Seqs.FilterKeepsAll | room_admin/src/pages/House/Room.tsx:52 | a filter every element passes returns the list unchanged |
| Seqs.FilterAgrees | room_mobile/src/screens/PendingScreen.tsx:52 | two tests that agree on every element give the same list |
| Seqs.FilterSplits | room_mobile/src/screens/OwnerScreen.tsx:61-62 | a test and its negation split a list into parts whose sizes add up to its length |
| LoginPage.ComputeErrors | room_admin/src/pages/Authentication/LoginPage.tsx:9-31 | the phone message is 'required' for an empty phone and 'invalid' for anything but ten digits; the password message is 'required' for an empty one and 'too short' when its `length`, counted in UTF-16 code units, is under six; valid exactly when both pass and both messages are empty |
| LoginPage.ErrorsForIsFunctional | room_admin/src/pages/Authentication/LoginPage.tsx:9-28 | the messages are fixed by the two inputs alone |
| LoginPage.AstralPasswordLongEnough | room_admin/src/pages/Authentication/LoginPage.tsx:24 | a password of three characters above U+FFFF has `length` six and passes the length rule |
| LoginPage.Page.HandleSubmit | room_admin/src/pages/Authentication/LoginPage.tsx:33-66 | the errors are committed; the credentials are posted only for a valid form; the token is kept only on an OK reply; otherwise the server's message, 'Login failed' or the thrown error's message is shown; `loading` is back to false after a request |
| LoginPage.Page.constructor | room_admin/src/pages/Authentication/LoginPage.tsx:4-7 | the phone, the password and both messages start empty, and nothing is loading |
| LoginPage.Page.EditPhone | room_admin/src/pages/Authentication/LoginPage.tsx:82 | typing in the phone field sets the phone and nothing else |
| LoginPage.Page.EditPassword | room_admin/src/pages/Authentication/LoginPage.tsx:97 | typing in the password field sets the password and nothing else |
| LoginScreen.ComputeErrors | room_mobile/src/screens/LoginScreen.tsx:25-31 | a 'required' error for each blank field after trimming and no other key; valid exactly when neither field is blank |
| LoginScreen.Screen.ValidateForm | room_mobile/src/screens/LoginScreen.tsx:25-31 | commits that record and reports whether it is empty |
| LoginScreen.Screen.HandleLogin | room_mobile/src/screens/LoginScreen.tsx:33-65 | the login button opens 'Main' whatever was typed and changes nothing, so no error is ever recorded |
| LoginScreen.Screen.constructor | room_mobile/src/screens/LoginScreen.tsx:21 | the error record starts empty |
| RegisterScreen.TrimmedFieldErrors | room_mobile/src/screens/RegisterScreen.tsx:46-53 | name, email, phone, password and confirmation are flagged exactly when blank after trimming; a password mismatch always ends with the mismatch message, overriding 'required' |
| RegisterScreen.UntrimmedFieldErrors | room_mobile/src/screens/RegisterScreen.tsx:54-64 | gender, date, address and role are flagged exactly when empty, the location exactly when a coordinate is zero; the earlier entries are kept |
| RegisterScreen.CoordinatesUsable | room_mobile/src/screens/RegisterScreen.tsx:58-64 | no contract of its own; the location check that `UntrimmedFieldErrors` and `ComputeErrors` state through it: neither coordinate is zero (`!x`); the `isNaN` parts cannot fail on reals |
| RegisterScreen.ComputeErrors | room_mobile/src/screens/RegisterScreen.tsx:44-67 | the record holds exactly those ten checks' messages, and the form is valid exactly when the record is empty, that is, when every check passes |
| RegisterScreen.TrimmedAndUntrimmedChecks | room_mobile/src/screens/RegisterScreen.tsx:46-56 | every blank name is rejected, since the name is trimmed; every non-empty address passes, spaces only included, since it is not; so a one-space name fails while a one-space address passes |
| RegisterScreen.PayloadOf | room_mobile/src/screens/RegisterScreen.tsx:71-81 | the body sends `fullName` as `full_name`, passes the other fields under their own names and drops the confirmation |
| RegisterScreen.PayloadForgetsOnlyConfirmation | room_mobile/src/screens/RegisterScreen.tsx:71-81 | two forms give the same body exactly when they differ at most in the confirmation |
| RegisterScreen.ReplyAlert | room_mobile/src/screens/RegisterScreen.tsx:99-111 | 'Registration Successful!' on OK, the server's message or 'Registration failed. Please try again.' on a failed reply, and the generic error when the request threw |
| RegisterScreen.Screen.HandleLocationSelect | room_mobile/src/screens/RegisterScreen.tsx:119-124 | the picked point replaces the location |
| RegisterScreen.Screen.HandleRegister | room_mobile/src/screens/RegisterScreen.tsx:69-117 | errors committed; the sign-up body is sent exactly for a valid form, else only 'Please fill in all fields correctly'; on OK the app goes to Login; `loading` is false afterwards |
| RegisterScreen.Screen.constructor | room_mobile/src/screens/RegisterScreen.tsx:28-36 | the default location, an empty error record and nothing loading |
| HomeOwnerScreen.With | room_mobile/src/screens/HomeOwnerScreen.tsx:95 | the spread sets the named flag and keeps every other one |
| HomeOwnerScreen.BasicInfoErrors | room_mobile/src/screens/HomeOwnerScreen.tsx:67-78 | title, description, address and area size are flagged exactly when blank after trimming, the price exactly when it is not a positive decimal; nothing else is in the record; valid exactly when all pass |
| HomeOwnerScreen.PositivePrice | room_mobile/src/screens/HomeOwnerScreen.tsx:72-73 | no contract of its own; the price test `BasicInfoErrors` states through it: a plain decimal numeral with a non-zero digit, an approximation of `Number` that the list below describes |
| HomeOwnerScreen.BasicInfoIgnoresRoomType | room_mobile/src/screens/HomeOwnerScreen.tsx:67-78 | neither the room type nor the number of rooms affects the check, so an empty room type passes |
| HomeOwnerScreen.ImageErrors | room_mobile/src/screens/HomeOwnerScreen.tsx:80-86 | the record holds only the image message, present exactly when no file is held; valid exactly when one is |
| HomeOwnerScreen.Changed | room_mobile/src/screens/HomeOwnerScreen.tsx:88-90 | `handleChange` sets the named text field and keeps every other field |
| HomeOwnerScreen.Toggled | room_mobile/src/screens/HomeOwnerScreen.tsx:92-97 | only the named flag flips; the rest of the form is unchanged |
| HomeOwnerScreen.ToggleTwice | room_mobile/src/screens/HomeOwnerScreen.tsx:92-97 | toggling a facility twice restores the form |
| HomeOwnerScreen.TogglesCommute | room_mobile/src/screens/HomeOwnerScreen.tsx:92-97 | toggles of two facilities may be done in either order |
| HomeOwnerScreen.FacilitiesExtensional | room_mobile/src/screens/HomeOwnerScreen.tsx:50-56 | the five flags determine the facilities record |
| HomeOwnerScreen.ImagePicked | room_mobile/src/screens/HomeOwnerScreen.tsx:100-122 | with fewer than five files a picked image is appended at the end; with five, or when nothing was picked, the files stay as they are; nothing else changes |
| HomeOwnerScreen.PicksStayCapped | room_mobile/src/screens/HomeOwnerScreen.tsx:100-122 | over any run of selections the count stays at most five and the earlier files stay in front in order |
| HomeOwnerScreen.PicksAddAtMostOneEach | room_mobile/src/screens/HomeOwnerScreen.tsx:100-122 | each selection adds at most one file |
| HomeOwnerScreen.PhotoNamesDistinct | room_mobile/src/screens/HomeOwnerScreen.tsx:155-162 | no two images share a file name |
| HomeOwnerScreen.PhotoParts | room_mobile/src/screens/HomeOwnerScreen.tsx:155-162 | one `files` part per image |
| HomeOwnerScreen.PhotoPartsAt | room_mobile/src/screens/HomeOwnerScreen.tsx:155-162 | the i-th part is the i-th image under the name photo<i>.jpg with type image/jpg |
| HomeOwnerScreen.FormDataShape | room_mobile/src/screens/HomeOwnerScreen.tsx:140-169 | the body has fifteen parts besides the images; the status part says 'available'; the images follow the ten scalars in order; one part per facility key |
| HomeOwnerScreen.FormDataIgnoresRoomStatus | room_mobile/src/screens/HomeOwnerScreen.tsx:149 | the form's own room status never reaches the request |
| HomeOwnerScreen.FormDataOf | room_mobile/src/screens/HomeOwnerScreen.tsx:140-169 | no contract of its own; the body that `FormDataShape`, `FormDataIgnoresRoomStatus` and `PhotoPartsAt` describe and `BuildFormData` is proved to build |
| HomeOwnerScreen.BuildFormData | room_mobile/src/screens/HomeOwnerScreen.tsx:140-169 | the appends and the two `forEach` loops build exactly that body |
| HomeOwnerScreen.SubmitAlert | room_mobile/src/screens/HomeOwnerScreen.tsx:190-199 | success text on OK; on a failed reply an 'Error' alert with the server's message when present and non-empty, else 'Something went wrong'; the failure text when the request threw |
| HomeOwnerScreen.Screen.constructor | room_mobile/src/screens/HomeOwnerScreen.tsx:20-64 | step 1, no user, status 'pending', one room, no facilities, no files, the default location |
| HomeOwnerScreen.Screen.UserLoaded | room_mobile/src/screens/HomeOwnerScreen.tsx:33-40 | the stored user is kept |
| HomeOwnerScreen.Screen.SelectStep | room_mobile/src/screens/HomeOwnerScreen.tsx:206-235 | a tab button sets the step with no check; the step stays in 1..4 |
| HomeOwnerScreen.Screen.NextFromBasicInfo | room_mobile/src/screens/HomeOwnerScreen.tsx:327 | the error record is replaced; the wizard moves to step 2 exactly when the basic info is complete |
| HomeOwnerScreen.Screen.ValidateImages | room_mobile/src/screens/HomeOwnerScreen.tsx:80-86 | the record is replaced by the image check alone |
| HomeOwnerScreen.Screen.HandleChange | room_mobile/src/screens/HomeOwnerScreen.tsx:88-90 | the form becomes `Changed` of the old form |
| HomeOwnerScreen.Screen.SetRoomCount | room_mobile/src/screens/HomeOwnerScreen.tsx:318 | only the room count changes |
| HomeOwnerScreen.Screen.ToggleFacility | room_mobile/src/screens/HomeOwnerScreen.tsx:92-97 | the form becomes `Toggled` of the old form |
| HomeOwnerScreen.Screen.HandleImageSelect | room_mobile/src/screens/HomeOwnerScreen.tsx:100-122 | the form becomes `ImagePicked` of the old form; the limit alert is shown exactly when five files are held; at most five files are ever held |
| HomeOwnerScreen.Screen.HandleLocationSelect | room_mobile/src/screens/HomeOwnerScreen.tsx:124-130 | coordinates become [latitude, longitude] and the step becomes 3 |
| HomeOwnerScreen.Screen.HandleSubmit | room_mobile/src/screens/HomeOwnerScreen.tsx:132-202 | no user means no request and only the sign-in alert; otherwise the body goes out with the bearer token and `loading` is back to false |
| SearchScreen.Results | room_mobile/src/screens/SearchScreen.tsx:77 | `data?.filter` is undefined exactly when the data is |
| SearchScreen.Matches | room_mobile/src/screens/SearchScreen.tsx:78-82 | no contract of its own; the test `ResultsSound` and `ResultsComplete` characterise: the lower-cased query occurs in the lower-cased title, address or description |
| SearchScreen.Displayed | room_mobile/src/screens/SearchScreen.tsx:191 | no contract of its own; the list shown, which `SearchShowsMatches`, `EmptyQueryShowsAll` and `ClearShowsAll` describe: the results while the query is non-empty, the fetched rooms otherwise |
| SearchScreen.HandleSearch | room_mobile/src/screens/SearchScreen.tsx:71-89 | the query is stored; a non-empty query sets the results to the matches, an empty one to [] |
| SearchScreen.ClearQuery | room_mobile/src/screens/SearchScreen.tsx:175 | the clear button empties the query and keeps the old results |
| SearchScreen.ResultsSound | room_mobile/src/screens/SearchScreen.tsx:77-82 | every result was fetched and has the lower-cased query in its lower-cased title, address or description |
| SearchScreen.ResultsComplete | room_mobile/src/screens/SearchScreen.tsx:77-82 | every fetched room that matches is a result |
| SearchScreen.ResultsInOrder | room_mobile/src/screens/SearchScreen.tsx:77 | the results keep the fetched order |
| SearchScreen.SearchIgnoresCase | room_mobile/src/screens/SearchScreen.tsx:79-81 | queries differing only in letter case give the same results |
| SearchScreen.SearchShowsMatches | room_mobile/src/screens/SearchScreen.tsx:76-83 | for a non-empty query the list shown is exactly the matching rooms |
| SearchScreen.EmptyQueryShowsAll | room_mobile/src/screens/SearchScreen.tsx:84-86 | an empty query empties the results and the full list is shown |
| SearchScreen.ClearShowsAll | room_mobile/src/screens/SearchScreen.tsx:172-191 | after the clear button the full list is shown |
| ExploreScreen.AllAllIsIdentity | room_mobile/src/screens/ExploreScreen.tsx:66-79 | with both selections 'All' every room is shown |
| ExploreScreen.ApplyFilters | room_mobile/src/screens/ExploreScreen.tsx:66-79 | no contract of its own; the filter effect that `ShownExactly`, `FiltersCompose`, `ShownInOrder` and `AllAllIsIdentity` characterise |
| ExploreScreen.ShownExactly | room_mobile/src/screens/ExploreScreen.tsx:69-77 | a room is shown exactly when its type equals a non-'All' type selection and its availability equals (selection == 'Available') for a non-'All' availability selection; a room without `is_available` fails every availability selection |
| ExploreScreen.FiltersCompose | room_mobile/src/screens/ExploreScreen.tsx:66-77 | two active selections are one filter by their conjunction |
| ExploreScreen.ShownInOrder | room_mobile/src/screens/ExploreScreen.tsx:66-79 | the shown rooms keep the fetched order |
| ExploreScreen.Step | room_mobile/src/screens/ExploreScreen.tsx:50-80 | no event changes the availability selection |
| ExploreScreen.RunSettles | room_mobile/src/screens/ExploreScreen.tsx:20-121 | on every reachable screen the room type is one of 'All', 'room', 'flat', the availability is 'All', and the list is the rooms of the selected type |
| OwnerScreen.BookedExactly | room_mobile/src/screens/OwnerScreen.tsx:61-62 | the booked list is exactly the occupied rooms, in order |
| OwnerScreen.PendingExactly | room_mobile/src/screens/OwnerScreen.tsx:63-64 | the pending list is exactly the rooms whose approval is an explicit false, in order |
| OwnerScreen.NothingFetchedShowsZero | room_mobile/src/screens/OwnerScreen.tsx:61-78 | before the rooms arrive both lists are empty and the total reads 0 |
| OwnerScreen.CountsBounded | room_mobile/src/screens/OwnerScreen.tsx:78-93 | neither count exceeds the total |
| OwnerScreen.BookedAndRestAreAll | room_mobile/src/screens/OwnerScreen.tsx:61-78 | the booked rooms and the rest add up to the total |
| OwnerScreen.BookedRooms | room_mobile/src/screens/OwnerScreen.tsx:61-62 | no contract of its own; `BookedExactly` and `NothingFetchedShowsZero` state what it holds |
| OwnerScreen.PendingRooms | room_mobile/src/screens/OwnerScreen.tsx:63-64 | no contract of its own; `PendingExactly` and `NothingFetchedShowsZero` state what it holds |
| OwnerScreen.TotalListings | room_mobile/src/screens/OwnerScreen.tsx:78 | no contract of its own; `CountsBounded` and `BookedAndRestAreAll` relate it to the two lists |
| OwnerScreen.ShowsEmptyText | room_mobile/src/screens/OwnerScreen.tsx:99-101 | no contract of its own; `EmptyTextOnlyWhenFetchedEmpty` states when it holds |
| OwnerScreen.EmptyTextOnlyWhenFetchedEmpty | room_mobile/src/screens/OwnerScreen.tsx:78-101 | 'No listings added yet.' appears exactly for a fetched list with no rooms, and then every count reads 0; before the rooms arrive the counts read 0 too but the text is not shown |
| OwnerScreen.LabelOf | room_mobile/src/screens/OwnerScreen.tsx:151-155 | 'Booked' exactly for an occupied room; otherwise 'Available' exactly when the approval is truthy |
| OwnerScreen.BadgeColour | room_mobile/src/screens/OwnerScreen.tsx:144-149 | no contract of its own; `ColourFollowsLabel` ties it to the label |
| OwnerScreen.ColourFollowsLabel | room_mobile/src/screens/OwnerScreen.tsx:144-155 | the badge colour is the label's colour, and each label has its own colour |
| OwnerScreen.OccupiedUnapprovedCountedTwice | room_mobile/src/screens/OwnerScreen.tsx:61-64 | an occupied, unapproved room is in both lists but labelled 'Booked' |
| OwnerScreen.MissingApprovalLabelledButNotCounted | room_mobile/src/screens/OwnerScreen.tsx:63-64 | a free room without an approval field is labelled 'Pending' but not counted as pending |
| PendingScreen.Shown | room_mobile/src/screens/PendingScreen.tsx:19-36 | with no user nothing is fetched and the list stays [] |
| PendingScreen.PendingOf | room_mobile/src/screens/PendingScreen.tsx:52 | no contract of its own; `PendingExactly`, `AgreesWithDashboard` and `DiffersOnMissingApproval` state what it keeps |
| PendingScreen.PendingExactly | room_mobile/src/screens/PendingScreen.tsx:52 | exactly the fetched rooms whose approval is not true, so a missing field counts as pending; in order |
| PendingScreen.AgreesWithDashboard | room_mobile/src/screens/PendingScreen.tsx:52 | when every approval is true or false, the list equals the dashboard's pending list |
| PendingScreen.DiffersOnMissingApproval | room_mobile/src/screens/PendingScreen.tsx:52 | a room without the field is listed here but not on the dashboard |
| BookedScreen.Shown | room_mobile/src/screens/BookedScreen.tsx:19-36 | with no user nothing is fetched and the list stays [] |
| BookedScreen.BookedOf | room_mobile/src/screens/BookedScreen.tsx:50-52 | no contract of its own; `BookedExactly` and `SameAsDashboard` state what it keeps |
| BookedScreen.BookedExactly | room_mobile/src/screens/BookedScreen.tsx:50-52 | exactly the fetched occupied rooms, in order |
| BookedScreen.SameAsDashboard | room_mobile/src/screens/BookedScreen.tsx:50-52 | the same list as the dashboard's booked rooms |
| FlatPage.TabsPartition | room_admin/src/pages/House/Flat.tsx:70-73 | Approved shows exactly the flats with approval true, Pending exactly those with false; no flat is on both; a flat without the field is on neither |
| FlatPage.FilteredHouses | room_admin/src/pages/House/Flat.tsx:70-73 | no contract of its own; `TabsPartition` and `ListIgnoresLoading` state what each tab lists |
| FlatPage.ListIgnoresLoading | room_admin/src/pages/House/Flat.tsx:70-73 | the list depends on the tab and the flats alone and keeps their order |
| FlatPage.SelectTab | room_admin/src/pages/House/Flat.tsx:86-96 | a tab button changes the tab only |
| FlatPage.FlatsFetched | room_admin/src/pages/House/Flat.tsx:9-31 | the fetched flats replace the list (kept when the request threw) and the spinner stops |
| FlatPage.HandleApprove | room_admin/src/pages/House/Flat.tsx:33-49 | an approve request for the id; the page state is unchanged |
| FlatPage.HandleDecline | room_admin/src/pages/House/Flat.tsx:51-67 | a reject request for the id; the page state is unchanged |
| FlatPage.ShowsModeration | room_admin/src/pages/House/Flat.tsx:103-146 | no contract of its own; `ModerationOnlyForPendingFlats` states when a card carries the buttons |
| FlatPage.ModerationOnlyForPendingFlats | room_admin/src/pages/House/Flat.tsx:103-146 | a card carries Approve and Decline exactly when nothing is loading, the Pending tab is open and the flat was fetched with approval `=== false`; an approved flat, or one without the field, never does |
| FlatPage.ModerationKeepsList | room_admin/src/pages/House/Flat.tsx:33-73 | approving or declining leaves the shown list, and which cards carry the buttons, as they were |
| RoomPage.FilteredExactly | room_admin/src/pages/House/Room.tsx:50-53 | Approved keeps exactly the houses with a non-empty status, in order; Pending shows all |
| RoomPage.FilteredHouses | room_admin/src/pages/House/Room.tsx:50-53 | no contract of its own; `FilteredExactly` and `SampleHousesOnBothTabs` state what each tab lists |
| RoomPage.SampleHousesOnBothTabs | room_admin/src/pages/House/Room.tsx:4-53 | both sample houses have a status, so Approved lists both |
| RoomPage.BadgeClass | room_admin/src/pages/House/Room.tsx:110-114 | no contract of its own; `BadgeGreenExactlyWhenBooked` states which colour it picks |
| RoomPage.BadgeGreenExactlyWhenBooked | room_admin/src/pages/House/Room.tsx:4-114 | the badge is green exactly for a house whose status is 'Booked'; of the sample houses the first is green and the second grey |
| RoomPage.ShowsButtons | room_admin/src/pages/House/Room.tsx:107-131 | no contract of its own; the Approve/Decline buttons replace the badge on the Pending tab, and `DeclineClick` requires them |
| RoomPage.Page.constructor | room_admin/src/pages/House/Room.tsx:28-31 | starts on Approved with the popup closed and cleared |
| RoomPage.Page.SetTab | room_admin/src/pages/House/Room.tsx:67-77 | the tab changes |
| RoomPage.Page.DeclineClick | room_admin/src/pages/House/Room.tsx:33-36 | only from a house card on the tab that shows buttons; the house becomes current and the popup opens, and the house being declined is always one of the listed houses |
| RoomPage.Page.ChangeMessage | room_admin/src/pages/House/Room.tsx:142-148 | typing sets the message while the popup is open |
| RoomPage.Page.PopupClose | room_admin/src/pages/House/Room.tsx:38-42 | the popup is closed, the message '' and no house current |
| RoomPage.Page.DeclineSubmit | room_admin/src/pages/House/Room.tsx:44-48 | reports the message and the house, which is one of the listed houses, then ends in the same closed state as Cancel |
| BookingRequestScreen.CountId | room_mobile/src/screens/BookingRequestScreen.tsx:72 | at most the list's length, and zero exactly when no request carries the id |
| BookingRequestScreen.WithoutId | room_mobile/src/screens/BookingRequestScreen.tsx:72 | no contract of its own; `DeleteRemovesExactly`, `DeleteAbsentIsNoOp`, `DeleteIdempotent` and `DeleteShrinksByCount` state what it keeps |
| BookingRequestScreen.DeleteRemovesExactly | room_mobile/src/screens/BookingRequestScreen.tsx:71-73 | after the delete no request has the id, and all others remain in order |
| BookingRequestScreen.DeleteAbsentIsNoOp | room_mobile/src/screens/BookingRequestScreen.tsx:71-73 | deleting an absent id changes nothing |
| BookingRequestScreen.DeleteIdempotent | room_mobile/src/screens/BookingRequestScreen.tsx:71-73 | deleting the same id twice is deleting it once |
| BookingRequestScreen.DeleteShrinksByCount | room_mobile/src/screens/BookingRequestScreen.tsx:72 | the list shrinks by exactly the number of requests with the id |
| BookingRequestScreen.Screen.constructor | room_mobile/src/screens/BookingRequestScreen.tsx:14-15 | no user and no requests |
| BookingRequestScreen.Screen.UserLoaded | room_mobile/src/screens/BookingRequestScreen.tsx:17-30 | the stored user is kept and the list is untouched |
| BookingRequestScreen.Screen.FetchRequests | room_mobile/src/screens/BookingRequestScreen.tsx:32-58 | without a user the request throws and the list is kept; an OK reply replaces the list; anything else keeps it |
| BookingRequestScreen.Screen.DeleteRequest | room_mobile/src/screens/BookingRequestScreen.tsx:62-79 | Delete removes the id's requests; Cancel leaves the list unchanged |
| BookingRequestScreen.MountAsWritten | room_mobile/src/screens/BookingRequestScreen.tsx:14-58 | the list effect runs before the user has loaded, so the list stays empty whatever is stored or returned |
| BookingRequestScreen.MountAfterUserLoads | room_mobile/src/screens/BookingRequestScreen.tsx:14-58 | run after the user has loaded, the effect shows the server's list to a signed-in owner |
| DetailsScreen.PayloadOf | room_mobile/src/screens/DetailsScreen.tsx:72-77 | room_id is the room's r_id, owner_id its u_id, price its price, user_id the stored user's id; all undefined without a room |
| DetailsScreen.BookingAlert | room_mobile/src/screens/DetailsScreen.tsx:95-109 | success text on OK; on failure the server's message or 'Failed to book the room.'; the generic error when the request threw |
| DetailsScreen.FailureMessageChoice | room_mobile/src/screens/DetailsScreen.tsx:104 | a non-empty server message is shown as is; with none the fixed text appears |
| DetailsScreen.StatusTag | room_mobile/src/screens/DetailsScreen.tsx:176-181 | no contract of its own; `ButtonFollowsTag` relates it to the Book button |
| DetailsScreen.ShowsBookButton | room_mobile/src/screens/DetailsScreen.tsx:319 | no contract of its own; `ButtonFollowsTag` relates it to the tag |
| DetailsScreen.ButtonFollowsTag | room_mobile/src/screens/DetailsScreen.tsx:176-181 | the Book button is rendered exactly when the tag reads 'Available', and the tag reads 'Booked' otherwise |
| DetailsScreen.Screen.DetailsLoaded | room_mobile/src/screens/DetailsScreen.tsx:29-64 | the stored user is kept; the room is fetched only with a non-empty token; a failed fetch shows the load alert; `loading` ends false |
| DetailsScreen.Screen.BeginBooking | room_mobile/src/screens/DetailsScreen.tsx:66-91 | no user means no request and only the sign-in alert; otherwise the body goes out with the bearer token while `bookingLoading` is true, which disables the Book button |
| DetailsScreen.Screen.BookingSettled | room_mobile/src/screens/DetailsScreen.tsx:93-112 | the reply's alert is shown and `bookingLoading` is false on every path, so the Book button is enabled again exactly when it is rendered |
| DetailsScreen.Screen.constructor | room_mobile/src/screens/DetailsScreen.tsx:20-24 | no user, no room, and neither spinner running |
| DetailsScreen.Screen.BookButtonEnabled | room_mobile/src/screens/DetailsScreen.tsx:319-323 | no contract of its own; the button is rendered for an available room and disabled while `bookingLoading`, as `BeginBooking` and `BookingSettled` state |

## Left out

- Network requests, AsyncStorage and localStorage, native alerts and navigation are not modelled as effects. Replies and stored values are parameters, and alerts, routes and requests are results.
- Timing is left out: the 300 ms debounce in the search screen, and the order in which asynchronous effects settle. `BookingRequestScreen.MountAsWritten` fixes one order, the one the dependency list forces.
- The search screen's refetch from the server-side search endpoint when `isSearching` changes is left out. Only the synchronous filter and the displayed-list choice are modelled.
- Js.Utf16Length: counts a character above U+FFFF as two code units and every other character as one, as JavaScript does. A JavaScript string can also hold an unpaired surrogate, which a Dafny string cannot, so such strings are outside the model.
- Js.Lower: lower-cases the ASCII letters only; JavaScript's `toLowerCase` also maps non-ASCII letters.
- HomeOwnerScreen.PositivePrice: approximates "`!price || isNaN(price) || price <= 0` is false" in both directions, because the model has no floating point. The model accepts exactly a plain decimal numeral (digits with at most one '.') that has a non-zero digit. It rejects strings that JavaScript's `Number` turns into a positive number: surrounding white space, a leading '+', exponents ('1e3'), hexadecimal, binary and octal prefixes ('0x1', '0b1', '0o7') and 'Infinity'. It accepts strings that `Number` rounds to zero and then rejects as `<= 0`, such as '0.' followed by 400 zeros and a '1'; and it takes a numeral that rounds to infinity as an ordinary positive price, which JavaScript also accepts.
- RegisterScreen.CoordinatesUsable: coordinates are reals, so `!x` is `x == 0` and the `isNaN` checks cannot fail; floating-point values and NaN are not modelled.
- HomeOwnerScreen.Screen.SetRoomCount: takes the room count already converted; `Number(text)` and its NaN are not modelled.
- FormData serialisation of numbers and booleans to text, the multipart encoding and the `Content-Type` header are not modelled; parts carry typed values.
- `JSON.parse` of the stored user and the shapes of server bodies are taken as given. The same goes for the image picker's response shape: a pick is a present or absent URI.
- The date picker (`toISOString`) in the registration screen is left out.
- The map and LocationPicker, the details screen's image carousel and favourite flag, and all styling are left out.
- The loading spinners' in-between states on the sign-in and registration screens are left out. The handlers are modelled from start to end, with `loading` false at the end.

## Findings

| source | as written | input that shows it | evidently intended | confidence | as-written member | corrected member |
|---|---|---|---|---|---|---|
| room_mobile/src/screens/BookingRequestScreen.tsx:32-58 | the list effect has an empty dependency list and reads `user.accessToken` on the first render, while `user` is still undefined; the TypeError is swallowed and the effect never runs again | any stored user, any server reply | fetch once the stored user has loaded, as the other screens do with a `[user]` dependency | high, not executed | BookingRequestScreen.MountAsWritten | BookingRequestScreen.MountAfterUserLoads |

# SpaceNow core in Dafny

SpaceNow is an Android app in which the residents of a building book its
shared amenities: the social hall, the barbecue area, the gym and so on. An
administrator also creates, edits and deletes these spaces. This project models
the logic behind the screens and proves properties of it:

- the input validation rules for names, e-mail addresses and passwords;
- the shared dashboard store of spaces and reservations, with the
  administrator's statistics of reservations per space;
- the booking form that turns a selected space and date into a PENDING
  reservation;
- the administrator's create / update / delete of spaces;
- the session: login, registration, logout and promotion to administrator.

Each view model is a Dafny class whose fields are its state flows. Its
methods change those fields and state the complete new state. Pure rules are
functions, and lemmas relate them to independent definitions:

- the trimmed text is the input with whitespace removed from both ends;
- the e-mail check decides exactly the language of the regular expression;
- the statistics count each space name as often as it occurs.

Calls to Firebase, to file storage and to the clock are not modelled as
code. Each one is an input parameter that carries its outcome: a result, or
the exception it threw. Every coroutine a view model launches runs at once,
to completion, in launch order. This matches the main dispatcher, which
starts a launched block at once.

Modules:

- Wrappers: Option.
- Text: Kotlin whitespace, trim and isBlank; Java regex character classes;
  decimal rendering of a Long.
- Validation: the validation rules.
- Model: Space, Reservation and User.
- Dashboard: DashboardViewModel.
- Booking: ReservationViewModel.
- SpaceForm: SpaceViewModel.
- Session: AuthViewModel.

## Model

| member | source | states |
|---|---|---|
| Text.Trim | app/src/main/java/com/app/spacenow/ui/utils/validationUtils.kt:7 | trim() returns a slice of the input with only whitespace around it. The slice neither starts nor ends with whitespace. It is empty exactly when the input is blank. |
| Text.TrimIdempotent | app/src/main/java/com/app/spacenow/ui/utils/validationUtils.kt:7 | Trimming twice gives the same result as trimming once. |
| Text.TrimKeepsUntrimmed | app/src/main/java/com/app/spacenow/ui/utils/validationUtils.kt:7 | Text that neither starts nor ends with whitespace is returned unchanged. |
| Text.TrimDropsPadding | app/src/main/java/com/app/spacenow/ui/utils/validationUtils.kt:7 | Trimming whitespace + word + whitespace gives back exactly the word. |
| Text.DecimalString | app/src/main/java/com/app/spacenow/ui/viewmodels/ReservationViewModel.kt:47 | Long.toString of a non-negative time gives decimal digits, with no leading zero, whose value is that number. |
| Validation.ValidateNameOrLastName | app/src/main/java/com/app/spacenow/ui/utils/validationUtils.kt:6-15 | Each of the four messages, and acceptance, is stated as an if-and-only-if condition on the trimmed input: its length (empty, 1, over 50), or whether every character is a letter of the allowed set or regex whitespace. |
| Validation.PaddedNameJudgedWithoutPadding | app/src/main/java/com/app/spacenow/ui/utils/validationUtils.kt:7-12 | A name with whitespace around it gets the same verdict as the name alone. |
| Validation.PaddedSingleLetterIsTooShort | app/src/main/java/com/app/spacenow/ui/utils/validationUtils.kt:10 | One letter with whitespace around it gets the "at least 2 characters" message. |
| Validation.NameOfFiftyLettersAccepted | app/src/main/java/com/app/spacenow/ui/utils/validationUtils.kt:11 | A name of 50 letters is accepted; one of 51 gets the too-long message. |
| Validation.IndexOf | app/src/main/java/com/app/spacenow/ui/utils/validationUtils.kt:22-23 | Returns -1 exactly when the character is absent; otherwise the position of its first occurrence. |
| Validation.EmailPatternIsRegexLanguage | app/src/main/java/com/app/spacenow/ui/utils/validationUtils.kt:23 | The e-mail decision procedure accepts exactly the strings of the form [\w._%+-]+ @ [\w.-]+ .com or .co. |
| Validation.EmailSplitAtIsFirst | app/src/main/java/com/app/spacenow/ui/utils/validationUtils.kt:23 | In every match of the e-mail regex, the @ is the first @ of the text. |
| Validation.EmailSplitDotIsEnding | app/src/main/java/com/app/spacenow/ui/utils/validationUtils.kt:23 | In every match of the e-mail regex, the final dot is where the .com / .co ending starts. |
| Validation.ValidateEmail | app/src/main/java/com/app/spacenow/ui/utils/validationUtils.kt:18-26 | The result is "required" exactly when the trimmed input is empty, "must contain @" exactly when it is non-empty without an @, and the ending message exactly when it has an @ but is outside the regex language. It is accepted exactly when it is inside that language. |
| Validation.WellFormedEmailAccepted | app/src/main/java/com/app/spacenow/ui/utils/validationUtils.kt:23 | Every local@domain.com or local@domain.co address made of allowed characters is accepted. |
| Validation.WrongEndingRejected | app/src/main/java/com/app/spacenow/ui/utils/validationUtils.kt:22-23 | An address with an @ that ends in neither .com nor .co gets the ending message. |
| Validation.DotStarIsRegexLanguage | app/src/main/java/com/app/spacenow/ui/utils/validationUtils.kt:33-36 | .\*X.\* matches exactly when the text has a character of class X and no line terminator. |
| Validation.ValidatePassword | app/src/main/java/com/app/spacenow/ui/utils/validationUtils.kt:29-39 | The result is "required" exactly when the password is empty and "too short" exactly when it has 1 to 7 characters. With 8 or more characters, the rules run in order: upper case, lower case, digit, symbol. Each message comes exactly when every earlier class regex matches and its own fails. It is accepted exactly when all four class regexes match. |
| Validation.PasswordAcceptedIff | app/src/main/java/com/app/spacenow/ui/utils/validationUtils.kt:29-39 | With no line terminator, a password is accepted exactly when it has 8 or more characters and an upper-case letter, a lower-case letter, a digit and one of !@#$%^&\*. |
| Validation.PasswordWithLineTerminatorFailsUpperRule | app/src/main/java/com/app/spacenow/ui/utils/validationUtils.kt:33 | A password of 8 or more characters that contains a line terminator always gets the upper-case message. |
| Validation.PasswordAccepted | app/src/main/java/com/app/spacenow/ui/utils/validationUtils.kt:29-39 | "Abcdef1!" is accepted. |
| Validation.PasswordWithoutUpper | app/src/main/java/com/app/spacenow/ui/utils/validationUtils.kt:33 | "abcdefg1" gets the upper-case message. |
| Dashboard.RemoveById | app/src/main/java/com/app/spacenow/ui/viewmodels/DashboardViewModel.kt:108-113 | A reservation stays exactly when its id differs from the deleted id. An absent id leaves the list unchanged. |
| Dashboard.RemoveByIdKeepsOrder | app/src/main/java/com/app/spacenow/ui/viewmodels/DashboardViewModel.kt:110 | Deleting distributes over concatenation, so the reservations that stay keep their order. |
| Dashboard.RemoveByIdIdempotent | app/src/main/java/com/app/spacenow/ui/viewmodels/DashboardViewModel.kt:108-113 | Deleting the same id twice is the same as deleting it once. |
| Dashboard.IndexOfFirstId | app/src/main/java/com/app/spacenow/ui/viewmodels/DashboardViewModel.kt:117 | indexOfFirst returns -1 exactly when no reservation has the id; otherwise the first position that has it. |
| Dashboard.WithDateTime | app/src/main/java/com/app/spacenow/ui/viewmodels/DashboardViewModel.kt:115-122 | The length is kept. Only the first reservation with the id gets the new date, and all its other fields stay. An unknown id leaves the list unchanged. |
| Dashboard.TallyCounts | app/src/main/java/com/app/spacenow/ui/viewmodels/DashboardViewModel.kt:98-106 | The statistics have a key for exactly the space names that occur. Each value is the number of reservations with that name. |
| Dashboard.TallySum | app/src/main/java/com/app/spacenow/ui/viewmodels/DashboardViewModel.kt:98-106 | The counts add up to the number of reservations counted. |
| Dashboard.CountBySpaceName | app/src/main/java/com/app/spacenow/ui/viewmodels/DashboardViewModel.kt:100-103 | The forEach loop computes exactly the statistics that Tally defines. |
| Dashboard.DashboardViewModel.constructor | app/src/main/java/com/app/spacenow/ui/viewmodels/DashboardViewModel.kt:14-47 | Start-up loads the six mock spaces and the user's two mock reservations (one and two days ahead). The flag is not admin, and there are no active reservations and no statistics. |
| Dashboard.DashboardViewModel.SetUserRole | app/src/main/java/com/app/spacenow/ui/viewmodels/DashboardViewModel.kt:32-44 | Sets the flag. Only a change from false to true loads all active reservations and recomputes the statistics; otherwise both stay as they were. |
| Dashboard.DashboardViewModel.UpdateAdminStatus | app/src/main/java/com/app/spacenow/ui/viewmodels/DashboardViewModel.kt:49-55 | The flag becomes whether the role is "admin", with the same reload rule. |
| Dashboard.DashboardViewModel.CalculateSpaceStatistics | app/src/main/java/com/app/spacenow/ui/viewmodels/DashboardViewModel.kt:98-106 | The statistics count the user's reservations followed by all active reservations. |
| Dashboard.DashboardViewModel.DeleteReservation | app/src/main/java/com/app/spacenow/ui/viewmodels/DashboardViewModel.kt:108-113 | The list becomes RemoveById of the old list. |
| Dashboard.DashboardViewModel.ModifyReservation | app/src/main/java/com/app/spacenow/ui/viewmodels/DashboardViewModel.kt:115-122 | The list becomes WithDateTime of the old list. |
| Dashboard.DashboardViewModel.AddReservation | app/src/main/java/com/app/spacenow/ui/viewmodels/DashboardViewModel.kt:124-133 | Appends the reservation. The statistics are recomputed for an administrator and left as they were otherwise. |
| Dashboard.RoleGatingFlow | app/src/main/java/com/app/spacenow/ui/viewmodels/DashboardViewModel.kt:36-44 | A plain user who books has no active reservations and no statistics. Turning admin on counts the user's reservations and the others': five reservations in all. |
| Booking.PendingReservation | app/src/main/java/com/app/spacenow/ui/viewmodels/ReservationViewModel.kt:46-53 | The reservation is PENDING and takes the selected space's id and name, the user and the date. Its id is the decimal rendering of the clock reading. |
| Booking.ReservationViewModel.constructor | app/src/main/java/com/app/spacenow/ui/viewmodels/ReservationViewModel.kt:15-27 | The form starts with no space, no date, no message, not loading, and no store attached. |
| Booking.ReservationViewModel.AttachDashboard | app/src/main/java/com/app/spacenow/MainActivity.kt:33 | The form gets the shared store. |
| Booking.ReservationViewModel.SetSelectedSpace | app/src/main/java/com/app/spacenow/ui/viewmodels/ReservationViewModel.kt:29-31 | Selects the space. |
| Booking.ReservationViewModel.SetSelectedDate | app/src/main/java/com/app/spacenow/ui/viewmodels/ReservationViewModel.kt:33-35 | Selects the date. |
| Booking.ReservationViewModel.CreateReservation | app/src/main/java/com/app/spacenow/ui/viewmodels/ReservationViewModel.kt:37-62 | Succeeds exactly when both a space and a date are selected. On failure: the message is set and the form and store are unchanged. On success: the store gains the PENDING reservation at the end (statistics per the admin rule), its other fields stay as they were, and the form is cleared. |
| Booking.ReservationViewModel.UpdateReservation | app/src/main/java/com/app/spacenow/ui/viewmodels/ReservationViewModel.kt:64-69 | Succeeds exactly when a date is selected, and changes nothing. |
| Booking.ReservationViewModel.ClearForm | app/src/main/java/com/app/spacenow/ui/viewmodels/ReservationViewModel.kt:71-75 | Space, date and message are all cleared. |
| Booking.BookingFlow | app/src/main/java/com/app/spacenow/ui/viewmodels/ReservationViewModel.kt:37-62 | Booking with nothing selected fails. After selecting, booking succeeds and the store holds the mock reservations plus the new PENDING one. An immediate second booking fails. |
| SpaceForm.PersistedImage | app/src/main/java/com/app/spacenow/ui/utils/ImageUtils.kt:16-17 | With no picture, the result is no URI and storage is not called; otherwise it is whatever persisting returns. |
| SpaceForm.NewSpace | app/src/main/java/com/app/spacenow/ui/viewmodels/SpaceViewModel.kt:64-72 | The new space carries the given id and the form's name, description and capacity. It is available, falls back to the social-hall drawable, and carries the persisted URI. |
| SpaceForm.UpdatedSpace | app/src/main/java/com/app/spacenow/ui/viewmodels/SpaceViewModel.kt:103-117 | Id, availability and drawable are kept. Name, description and capacity are replaced. The URI changes only to a newly persisted picture, and a newly persisted picture always replaces it. |
| SpaceForm.SpaceViewModel.constructor | app/src/main/java/com/app/spacenow/ui/viewmodels/SpaceViewModel.kt:18-31 | The form starts with no selection, not loading, no message, no store, no context and no forwarded calls. |
| SpaceForm.SpaceViewModel.AttachStore | app/src/main/java/com/app/spacenow/MainActivity.kt:34 | The space form gets the shared store. |
| SpaceForm.SpaceViewModel.SetContext | app/src/main/java/com/app/spacenow/ui/viewmodels/SpaceViewModel.kt:34-36 | The context becomes available. |
| SpaceForm.SpaceViewModel.SetSelectedSpace | app/src/main/java/com/app/spacenow/ui/viewmodels/SpaceViewModel.kt:38-40 | Selects the space. |
| SpaceForm.SpaceViewModel.CreateSpace | app/src/main/java/com/app/spacenow/ui/viewmodels/SpaceViewModel.kt:42-85 | An invalid form is refused with no call. A missing context is refused. Otherwise the store is sent the new available space with the persisted URI. The result is true unless that call throws, in which case the message carries the exception's text. Loading is off at the end. |
| SpaceForm.SpaceViewModel.UpdateSpace | app/src/main/java/com/app/spacenow/ui/viewmodels/SpaceViewModel.kt:87-130 | The same cases as create, sending UpdatedSpace. |
| SpaceForm.SpaceViewModel.DeleteSpace | app/src/main/java/com/app/spacenow/ui/viewmodels/SpaceViewModel.kt:132-146 | Sends the id without any validation. Fails only when that call throws. Loading is off at the end. |
| SpaceForm.SpaceViewModel.ClearForm | app/src/main/java/com/app/spacenow/ui/viewmodels/SpaceViewModel.kt:148-151 | Selection and message are cleared. |
| SpaceForm.SpaceViewModel.ClearErrorMessage | app/src/main/java/com/app/spacenow/ui/viewmodels/SpaceViewModel.kt:153-155 | The message is cleared. |
| Session.RoleFromLookup | app/src/main/java/com/app/spacenow/ui/viewmodels/AuthViewModel.kt:60-68 | The role is ADMIN exactly when the stored "rol" is "admin". Any other value, a missing field or a failed read gives USER. |
| Session.RoleName | app/src/main/java/com/app/spacenow/ui/viewmodels/AuthViewModel.kt:80 | The published role string is "admin" exactly for ADMIN, and "user" otherwise. |
| Session.AuthViewModel.constructor | app/src/main/java/com/app/spacenow/ui/viewmodels/AuthViewModel.kt:25-38 | The session starts signed out, with role "user" and no message. |
| Session.AuthViewModel.SetUserRole | app/src/main/java/com/app/spacenow/ui/viewmodels/AuthViewModel.kt:40-42 | Only the published role string changes. |
| Session.AuthViewModel.PromoteToAdmin | app/src/main/java/com/app/spacenow/ui/viewmodels/AuthViewModel.kt:44-58 | A caller whose userData role is not ADMIN is refused and nothing is written. An admin writes rol = "admin" to the target's document, or gets the exception's message. |
| Session.AuthViewModel.Login | app/src/main/java/com/app/spacenow/ui/viewmodels/AuthViewModel.kt:70-91 | A verified user becomes authenticated with the stored role, and the role string is "admin" for ADMIN and "user" otherwise. An unverified or missing user, and a failed sign-in, only set their message. |
| Session.AuthViewModel.Register | app/src/main/java/com/app/spacenow/ui/viewmodels/AuthViewModel.kt:93-118 | Writes the profile with rol "user" and leaves the session signed out. The first call that throws ends it with its message. A missing uid changes nothing. |
| Session.AuthViewModel.Logout | app/src/main/java/com/app/spacenow/ui/viewmodels/AuthViewModel.kt:120-135 | On success: signed out with role "user". On failure: the session is kept and the message is set. The logging-out flag is off at the end. |
| Session.AuthViewModel.ClearError | app/src/main/java/com/app/spacenow/ui/viewmodels/AuthViewModel.kt:137-139 | The message is cleared. |
| Session.SelfPromotionIsRefused | app/src/main/java/com/app/spacenow/ui/viewmodels/AuthViewModel.kt:40-48 | Setting the role string to "admin" does not pass the promotion gate: the call is refused and nothing is written. |

## Left out

- Screens, navigation, theme and the components under ui/: they only display state or forward user input.
- The file copying in saveImageToAppStorage: it is replaced by an input function that returns the permanent URI, or none when copying fails.
- Firebase Authentication and Firestore: each call is replaced by an input that carries its result or its exception. The document writes that take effect are kept in a ghost log.
- Coroutines and StateFlow: each launched block runs at once and to completion. A state flow is a field, and its collectors are folded into the method that sets it.
- The calls SpaceViewModel forwards to the store (addSpace, updateSpace, deleteSpace): DashboardViewModel defines none of them, so only the forwarded call is recorded.
- The upstream flow in updateAdminStatus: each role it emits is one call of UpdateAdminStatus.
- The mock loaders' clock: the source reads the time once per mock reservation, while the model uses one reading `now` per loader call. So the model's mock dates are exactly one and two days after the same instant.
- The key order of the statistics map (a LinkedHashMap): the model keeps the counts, not the order.
- validatePhoneNumber and validateConfirmPassword: the validation object shown has no such functions.
- Supplementary Unicode characters: each char is one UTF-16 code unit. U+180E is not treated as whitespace.
- Space capacity (a 32-bit Int) and timestamps (Long milliseconds): both are unbounded integers, because no operation does arithmetic that could overflow, apart from the mock loaders' now + 2 days.
- The conversion of typed capacity text to a number is on the form screen: capacity reaches the model as an integer.
- The auth.signOut() in the unverified-login branch: the model assumes it does not throw.
- Unique reservation ids: an id is the clock reading, so two bookings in the same millisecond share one. No uniqueness is claimed.
- The Space record: the one in data/model has no imageUri, but SpaceViewModel builds spaces with one. The model includes the field.
- Model.Space: the record's default-argument constructor is not modelled; every space is built with all its fields.
- ReservationViewModel.isLoading: it is never changed, so it stays false.
- User.kt defaults: rol is always "user" when a profile is written; the other defaults are not modelled.

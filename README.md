# AyurSutra booking and search logic in Dafny

AyurSutra is a website for Ayurvedic Panchakarma treatment. It offers a treatment catalogue,
a hospital directory with doctor lists, a four-step appointment wizard checked by a one-time
code, a feedback form, an admin dashboard, a profile page, and a static HTML export with its
own booking form and simulated login. This project models the behaviour behind those pages.
It proves what each rule promises:

- the search filters and the lookups;
- the gates of the wizard and the forms;
- the formatters (counts, labels, times, ids);
- the state kept by the wizard, the feedback section, the admin dashboard, the profile page and
  the static script.

## Layout

One module per page or script, plus four shared modules:

| file | module | what it holds |
|---|---|---|
| `wrappers.dfy` | `Wrappers` | `Option` |
| `text.dfy` | `Text` | the JavaScript string primitives the pages use, as far as they matter here: ASCII `toLowerCase`/`toUpperCase`, `includes`, `split(c)[0]`, `padStart`, decimal printing, and the digit-prefix reading of `parseInt` |
| `seqs.dfy` | `Seqs` | `filter`, `find`, subsequences |
| `entities.dfy` | `Entities` | the treatment, hospital and doctor records, the signed-in member, and `x \|\| fallback` on optional strings |
| `search.dfy` | `Search` | the one field test every search box uses: `field?.toLowerCase().includes(term.toLowerCase())` |
| `treatments_page.dfy` | `TreatmentsPage` | the treatment list |
| `hospitals_page.dfy` | `HospitalsPage` | the hospital list |
| `admin_dashboard.dfy` | `AdminDashboard` | the admin filters, the add dialogs and the patient ID |
| `treatment_detail.dfy` | `TreatmentDetail` | slug-then-id lookup |
| `hospital_detail.dfy` | `HospitalDetail` | affiliated doctors, count, button label |
| `header.dfy` | `Header` | dashboard link, account label |
| `profile.dfy` | `Profile` | the profile form and the initials |
| `feedback.dfy` | `Feedback` | the feedback form and the star widget |
| `static_site.dfy` | `StaticSite` | the HTML export's booking, login and `formatTime` |
| `appointment_wizard.dfy` | `AppointmentWizard` | the four-step wizard |

How the JavaScript constructs are represented:

- **State.** Code that keeps state in React hooks or in globals is a Dafny `class`. Each handler
  is a method whose `modifies` clause names the fields it sets.
- **Availability.** An action the page offers only in some states is a `requires` on its
  method. Examples: a button rendered only on one step, an input disabled once the phone is
  verified, an input that exists only inside an open dialog, a select that offers only fetched
  records. A field the page has no input for (the profile e-mail) cannot be edited.
- **Nondeterminism.** `Math.random()` is a real `r` in [0, 1). `Date.now()`, the current day,
  the time of day, the time zone and `crypto.randomUUID()` are parameters.
- **The data service.** The answer of each service call comes in as a parameter: `Option`
  when the call may throw.
- **Missing fields.** An optional record field is an `Option`. `undefined` never equals a
  string and never matches a search.

### Where the code and the intended behaviour differ

The model follows the code in every case below.

- **Wizard calendar.** Its rule is `date < new Date()`: a calendar day (local midnight) is
  compared with the current instant. So the current day is disabled except at midnight
  exactly (`AppointmentWizard.CalendarToday`), not "today or later". `nextStep` never checks
  the date again.
- **Wizard one-time code.** It is drawn once at mount. Nothing resets `otpVerified`. "Book
  Another Appointment" only sets the step back to 1: the draft, the code and the verification
  all stay. The next pass is confirmed without a new check (`Wizard.BookAnother`). Editing
  the phone after verification does not clear the verification either.
- **Static booking form, date check.** `new Date("YYYY-MM-DD")` is midnight UTC, while the
  comparison uses local midnight. The rule "today or later is accepted" therefore holds only
  at or east of Greenwich (`StaticSite.DayReadingEastOfUtc`). West of it the current day is
  refused (`StaticSite.TodayRefusedOnlyWestOfUtc`).
- **Hospital detail page.** A hospital record without a name is credited with every doctor
  that has no affiliation (`HospitalDetail.UnnamedHospitalGetsUnaffiliated`). Conversely,
  choosing such a hospital in the admin dashboard stores the affiliation "", so the new doctor
  is never listed on that hospital's page (`AdminDashboard.NamelessHospitalChoiceNotListed`).
- **Profile page.** "Cancel" leaves edit mode but keeps the edited values, and "Save" stores
  nothing.

## Model

| member | source | states |
|---|---|---|
| Text.Lower | src/components/pages/TreatmentsPage.tsx:37-38 | `toLowerCase` keeps the length and maps every character by the ASCII lower-case map |
| Text.Upper | src/components/pages/ProfilePage.jsx:41 | `toUpperCase` keeps the length and maps every character by the ASCII upper-case map |
| Text.SplitFirst | src/html-export/script.js:331 | `split(c)[0]` and the rest: the head holds no separator; there is a rest iff the string holds the separator; head, separator and rest rebuild the string |
| Text.SplitFirstOfJoin | src/html-export/script.js:331 | splitting `a + c + b` with `c` not in `a` gives back exactly `a` and `b` |
| Text.IncludesIff | src/components/pages/TreatmentsPage.tsx:37-38 | `includes` holds exactly when the term occurs at some position of the string |
| Text.PadStart | src/components/pages/AdminDashboardPage.jsx:194 | `padStart`: the length is the larger of the two; the string is a suffix; the rest is fill characters |
| Text.NatToString | src/components/pages/TreatmentsPage.tsx:103 | a number prints as a non-empty digit string with a leading zero only for 0 |
| Text.DigitsValueOfNatToString | src/components/pages/TreatmentsPage.tsx:103 | reading back a printed number gives the number |
| Text.ParseIntOfIntToString | src/html-export/script.js:476 | the text `toString` prints for any integer, negative ones included, reads back through `parseInt` as that integer |
| Text.ParseIntOfNatToString | src/components/pages/AdminDashboardPage.jsx:164 | `parseInt` of a printed number followed by a non-digit gives the number |
| Text.ParseInt | src/components/pages/AdminDashboardPage.jsx:164 | a number comes out exactly when a digit follows the leading white space and the sign; a negative one only after a minus sign |
| Text.ParseIntNaN | src/components/pages/AdminDashboardPage.jsx:164 | `parseInt` of text that starts with no sign, digit or space is NaN |
| Seqs.Filter | src/components/pages/TreatmentsPage.tsx:36 | `filter` keeps only elements satisfying the test, keeps every one that does, and never grows |
| Seqs.FilterIsSubsequence | src/components/pages/TreatmentsPage.tsx:36 | a filter result is an order-preserving subsequence of its input |
| Seqs.FindIsFirst | src/components/pages/TreatmentDetailPage.tsx:27 | `find` returns the first element satisfying the test |
| Entities.OrElse | src/components/layout/Header.tsx:100 | `x \|\| fallback` returns the fallback iff the value is missing, empty or the fallback; otherwise it returns the value |
| Search.FieldMatches | src/components/pages/TreatmentsPage.tsx:37-38 | a field matches exactly when it is present and the lower-cased term occurs somewhere in the lower-cased field |
| Search.EmptyTermMatchesPresent | src/components/pages/TreatmentsPage.tsx:37-38 | the empty term matches a field iff the field is present |
| Search.MatchIgnoresTermCase | src/components/pages/TreatmentsPage.tsx:37-38 | the term in capitals matches the same fields |
| Search.MatchIgnoresFieldCase | src/components/pages/TreatmentsPage.tsx:37-38 | a field in capitals matches the same terms |
| Search.MatchNarrows | src/components/pages/TreatmentsPage.tsx:37-38 | a field matching a term also matches every part of it |
| TreatmentsPage.FilteredTreatments | src/components/pages/TreatmentsPage.tsx:36-39 | keeps exactly the treatments whose name or description contains the term, ignoring case; never longer than the input |
| TreatmentsPage.FilteredTreatmentsKeepsOrder | src/components/pages/TreatmentsPage.tsx:36 | the result is an order-preserving subsequence of the fetched list |
| TreatmentsPage.EmptySearchKeepsDescribed | src/components/pages/TreatmentsPage.tsx:37-38 | with an empty term exactly the treatments with a name or a description are listed |
| TreatmentsPage.SearchNarrows | src/components/pages/TreatmentsPage.tsx:36-39 | a longer term lists a subsequence of what any part of it lists |
| TreatmentsPage.SearchIgnoresCase | src/components/pages/TreatmentsPage.tsx:36-39 | the term in capitals lists the same treatments |
| TreatmentsPage.ResultCountLine | src/components/pages/TreatmentsPage.tsx:103 | the line says "treatment" iff the count is 1, "treatments" otherwise |
| TreatmentsPage.LinkSegment | src/components/pages/TreatmentsPage.tsx:137 | the link uses the slug when it is non-empty, the id otherwise |
| TreatmentsPage.TreatmentLink | src/components/pages/TreatmentsPage.tsx:137 | the treatments route, then the non-empty slug or else the record id |
| HospitalsPage.FilteredHospitals | src/components/pages/HospitalsPage.tsx:36-39 | keeps exactly the hospitals whose name or address contains the term, ignoring case |
| HospitalsPage.FilteredHospitalsKeepsOrder | src/components/pages/HospitalsPage.tsx:36 | the result is an order-preserving subsequence |
| HospitalsPage.FilteredHospitalsIdempotent | src/components/pages/HospitalsPage.tsx:36 | filtering twice with the same term is filtering once |
| HospitalsPage.UnnamedHospitalNeverListed | src/components/pages/HospitalsPage.tsx:37-38 | a hospital with neither name nor address is never listed |
| HospitalsPage.EmptySearchKeepsAddressed | src/components/pages/HospitalsPage.tsx:37-38 | with an empty term exactly the hospitals with a name or an address are listed |
| HospitalsPage.SearchNarrows | src/components/pages/HospitalsPage.tsx:36-39 | a longer term lists a subsequence of what any part of it lists |
| HospitalsPage.ResultCountLine | src/components/pages/HospitalsPage.tsx:102 | singular iff exactly one result |
| AdminDashboard.FilterHospitalsByName | src/components/pages/AdminDashboardPage.jsx:198-200 | keeps exactly the hospitals whose name contains the term, ignoring case |
| AdminDashboard.AdminFilterIgnoresAddress | src/components/pages/AdminDashboardPage.jsx:198-200 | the address never affects the admin hospital filter |
| AdminDashboard.AdminListWithinPublicList | src/components/pages/AdminDashboardPage.jsx:198-200 | the admin list is a subsequence of the public hospital list for the same term |
| AdminDashboard.AddressOnlyMatchHidden | src/components/pages/AdminDashboardPage.jsx:198-200 | a hospital matching only by address is on the public list but not on the admin list |
| AdminDashboard.FilterDoctors | src/components/pages/AdminDashboardPage.jsx:202-205 | keeps exactly the doctors whose full name or specialization contains the term, ignoring case |
| AdminDashboard.DoctorSearchNarrows | src/components/pages/AdminDashboardPage.jsx:202-205 | the doctor list keeps fetch order and only narrows as the term grows |
| AdminDashboard.HospitalDraftSet | src/components/pages/AdminDashboardPage.jsx:514-558 | an input of the add-hospital dialog changes its own field and no other |
| AdminDashboard.DoctorDraftSet | src/components/pages/AdminDashboardPage.jsx:652-704 | an input of the add-doctor dialog changes its own field and no other |
| AdminDashboard.ExperienceYears | src/components/pages/AdminDashboardPage.jsx:164 | NaN becomes 0; any number is kept |
| AdminDashboard.NonNumericExperienceIsZero | src/components/pages/AdminDashboardPage.jsx:164 | an entry that does not begin with a number is stored as 0 |
| AdminDashboard.NumericExperienceKept | src/components/pages/AdminDashboardPage.jsx:164 | a typed number, possibly followed by a unit, is stored as that number |
| AdminDashboard.NewHospitalRecord | src/components/pages/AdminDashboardPage.jsx:130-133 | the record has the fresh id and every draft field, stored under the same name as a present string |
| AdminDashboard.NewHospitalFoundByName | src/components/pages/AdminDashboardPage.jsx:198-200 | an added hospital is found by the admin search exactly when its name contains the term |
| AdminDashboard.NewDoctorRecord | src/components/pages/AdminDashboardPage.jsx:162-166 | the record has the fresh id, every text field of the draft, and the coerced years |
| AdminDashboard.NewDoctorListedAtChosenHospital | src/components/pages/AdminDashboardPage.jsx:690-697 | a doctor added with a named hospital chosen in the select is listed on that hospital's page |
| AdminDashboard.NamelessHospitalChoiceNotListed | src/components/pages/AdminDashboardPage.jsx:693 | choosing a hospital without a name stores "", and that hospital's page never lists the doctor |
| AdminDashboard.LastSix | src/components/pages/AdminDashboardPage.jsx:193 | `slice(-6)` is the last six characters, or all of a shorter string |
| AdminDashboard.RandomBelowThousand | src/components/pages/AdminDashboardPage.jsx:194 | `Math.floor(Math.random() * 1000)` is below 1000 |
| AdminDashboard.PatientId | src/components/pages/AdminDashboardPage.jsx:191-196 | "AYR" and 4 to 9 digits; the clock digits read as the clock modulo 10^6 and the last three as the random number; twelve characters iff the clock has six digits or more |
| AdminDashboard.StampValue | src/components/pages/AdminDashboardPage.jsx:193 | the clock part has one to six digits, six iff the clock is at least 100000, and reads as the clock modulo 10^6 |
| AdminDashboard.TrailingDigitsValue | src/components/pages/AdminDashboardPage.jsx:193 | the last k digits of a numeral read as its value modulo 10^k |
| AdminDashboard.PadValue | src/components/pages/AdminDashboardPage.jsx:194 | the padded random part has three digits and reads as the number |
| AdminDashboard.PaddedValue | src/components/pages/AdminDashboardPage.jsx:194 | zero padding keeps a numeral's value |
| AdminDashboard.ZeroPrefixValue | src/components/pages/AdminDashboardPage.jsx:194 | any number of leading zeros leaves a numeral's value unchanged |
| AdminDashboard.Dashboard.constructor | src/components/pages/AdminDashboardPage.jsx:83-107 | empty lists and term, empty drafts, closed dialogs |
| AdminDashboard.Dashboard.FetchData | src/components/pages/AdminDashboardPage.jsx:108-125 | both lists are replaced on success; both are kept if either call fails |
| AdminDashboard.Dashboard.SetSearchTerm | src/components/pages/AdminDashboardPage.jsx:582-583 | the one term drives both the hospital and the doctor list |
| AdminDashboard.Dashboard.SetAddHospitalOpen | src/components/pages/AdminDashboardPage.jsx:497 | opens or closes the add-hospital dialog |
| AdminDashboard.Dashboard.SetAddDoctorOpen | src/components/pages/AdminDashboardPage.jsx:635 | opens or closes the add-doctor dialog |
| AdminDashboard.Dashboard.EditHospital | src/components/pages/AdminDashboardPage.jsx:514-558 | only while the dialog is open; the draft changes in the named field only |
| AdminDashboard.Dashboard.EditDoctor | src/components/pages/AdminDashboardPage.jsx:652-704 | only while the dialog is open, and the affiliation only from the fetched hospitals' names; the draft changes in the named field only |
| AdminDashboard.Dashboard.AddHospital | src/components/pages/AdminDashboardPage.jsx:128-157 | from the open dialog: the sent record is the draft with the new id; only if create and refresh both succeed are the list replaced, the draft reset and the dialog closed; nothing else changes |
| AdminDashboard.Dashboard.AddDoctor | src/components/pages/AdminDashboardPage.jsx:159-189 | as for hospitals, with the years coerced by `parseInt(...) \|\| 0` |
| TreatmentDetail.LookUp | src/components/pages/TreatmentDetailPage.tsx:27-32 | a result is a fetched treatment matching by slug or id; none exactly when nothing matches either way |
| TreatmentDetail.SlugTakesPrecedence | src/components/pages/TreatmentDetailPage.tsx:27 | the first slug match wins over any id match |
| TreatmentDetail.IdFallback | src/components/pages/TreatmentDetailPage.tsx:30-32 | without a slug match the first id match is opened |
| TreatmentDetail.TreatmentView | src/components/pages/TreatmentDetailPage.tsx:20-71 | an empty parameter keeps the spinner; a failed fetch or no match gives "not found"; a shown treatment is a fetched one |
| TreatmentDetail.LinkOpensItsTreatment | src/components/pages/TreatmentsPage.tsx:137 | following a card link opens that card's treatment when no other treatment shares its link segment |
| TreatmentDetail.RouteTreatmentId | src/components/Router.tsx:43 | a path matches when it is the treatments prefix, in any case, and one non-empty segment without '/', which is the parameter with its case kept |
| TreatmentDetail.RouteIgnoresPrefixCase | src/components/Router.tsx:43 | "/Treatments/x" and "/TREATMENTS/x" open the parameter x |
| TreatmentDetail.CardLinkOpensItsTreatment | src/components/pages/TreatmentsPage.tsx:137 | a card link without '/' in its segment routes to the detail page with that segment, which opens the card's treatment |
| HospitalDetail.AffiliatedDoctors | src/components/pages/HospitalDetailPage.tsx:33-35 | keeps exactly the doctors whose affiliation equals the hospital's name |
| HospitalDetail.NamedHospitalDoctors | src/components/pages/HospitalDetailPage.tsx:33-35 | for a named hospital: the doctors affiliated with that exact name, in fetch order |
| HospitalDetail.UnnamedHospitalGetsUnaffiliated | src/components/pages/HospitalDetailPage.tsx:34 | an unnamed or missing hospital gets exactly the doctors with no affiliation |
| HospitalDetail.LoadHospital | src/components/pages/HospitalDetailPage.tsx:22-45 | an empty parameter keeps the spinner; the hospital is the lookup's answer; the doctors are the affiliated ones when both calls succeed, and none otherwise |
| HospitalDetail.DoctorCountLabel | src/components/pages/HospitalDetailPage.tsx:125 | a numeral reading as the number of doctors, then "+" |
| HospitalDetail.BookButtonLabel | src/components/pages/HospitalDetailPage.tsx:310 | "Book with Dr. " and then the first space-separated word of the name: the whole name when it has no space, otherwise the text before the first space; nothing after it when there is no name |
| HospitalDetail.BookButtonFirstName | src/components/pages/HospitalDetailPage.tsx:310 | for "First Last" the button names "First" |
| HospitalDetail.BookButtonOneWord | src/components/pages/HospitalDetailPage.tsx:310 | a one-word name is shown whole |
| Header.UserRole | src/components/layout/Header.tsx:14 | a missing or empty stored role is "patient" |
| Header.DashboardLink | src/components/layout/Header.tsx:11-23 | "doctor" iff the doctor dashboard, "admin" iff the admin dashboard, every other role (missing included) the patient dashboard |
| Header.AccountLabel | src/components/layout/Header.tsx:100 | the nickname, else the first name, else "Dashboard"; empty strings fall through; never empty |
| Profile.FormSet | src/components/pages/ProfilePage.jsx:28-30 | changes the named field only |
| Profile.InitialForm | src/components/pages/ProfilePage.jsx:17-26 | each field from the member or "", biography and address always "", all "" without a member |
| Profile.CharAt0 | src/components/pages/ProfilePage.jsx:41 | `charAt(0)`: one character or none, a prefix of the string |
| Profile.Initials | src/components/pages/ProfilePage.jsx:38-42 | the capital of the first name's first letter, if that name is non-empty, then the capital of the last name's first letter, if that one is non-empty |
| Profile.InitialsOfFullName | src/components/pages/ProfilePage.jsx:38-42 | both names present: the capitals of their first letters |
| Profile.ProfilePage.constructor | src/components/pages/ProfilePage.jsx:16-26 | not editing; the form seeded from the member |
| Profile.ProfilePage.StartEditing | src/components/pages/ProfilePage.jsx:101-102 | enters edit mode |
| Profile.ProfilePage.HandleInputChange | src/components/pages/ProfilePage.jsx:28-30 | while editing, a field with an input (every one but the e-mail) takes the value; the e-mail never changes |
| Profile.ProfilePage.Cancel | src/components/pages/ProfilePage.jsx:108 | leaves edit mode and keeps the edited form |
| Profile.ProfilePage.HandleSave | src/components/pages/ProfilePage.jsx:32-36 | leaves edit mode; the form is unchanged |
| Feedback.TextSet | src/components/ui/feedback-section.tsx:60-62 | changes the named text field only; the rating stays |
| Feedback.Submittable | src/components/ui/feedback-section.tsx:66 | sendable exactly when a rating is set and every text field but the category is non-empty |
| Feedback.CategoryNeverGates | src/components/ui/feedback-section.tsx:66 | the category never decides whether the form can be sent |
| Feedback.InitialNotSubmittable | src/components/ui/feedback-section.tsx:50-69 | the fresh form cannot be submitted |
| Feedback.Stars | src/components/ui/feedback-section.tsx:89-90 | always five stars |
| Feedback.StarsLeadingRun | src/components/ui/feedback-section.tsx:91-93 | lit stars form a leading run |
| Feedback.LitStarsMatchBound | src/components/ui/feedback-section.tsx:91-93 | the number of lit stars is the bound, clamped to 0..5 |
| Feedback.InteractiveBound | src/components/ui/feedback-section.tsx:91-92 | a hover above 0 overrides the rating; a hover of 0 falls back to it |
| Feedback.RatingCaption | src/components/ui/feedback-section.tsx:229 | "Select rating" iff no rating, else "n/5" |
| Feedback.CategoryCaption | src/components/ui/feedback-section.tsx:305 | an empty category shows as "General" |
| Feedback.FeedbackSection.constructor | src/components/ui/feedback-section.tsx:50-58 | the initial record, not submitted, no hover |
| Feedback.FeedbackSection.HandleInputChange | src/components/ui/feedback-section.tsx:60-62 | the named field takes the value; ratings stay in 0..5 |
| Feedback.FeedbackSection.ClickStar | src/components/ui/feedback-section.tsx:101 | clicking star k sets the rating to k, so a set rating lies in 1..5 |
| Feedback.FeedbackSection.EnterStar | src/components/ui/feedback-section.tsx:102 | hovering star k lights stars 1..k |
| Feedback.FeedbackSection.LeaveStar | src/components/ui/feedback-section.tsx:103 | after the pointer leaves, the stars show the rating |
| Feedback.FeedbackSection.HandleSubmit | src/components/ui/feedback-section.tsx:64-73 | accepted iff name, email, rating and message are set (category optional); only an accepted submit sets `isSubmitted`; the record is unchanged |
| Feedback.FeedbackSection.ResetAfterDelay | src/components/ui/feedback-section.tsx:76-85 | back to the initial record and not submitted |
| StaticSite.MissingFields | src/html-export/script.js:406-407 | lists only empty required fields; empty iff every required field is filled |
| StaticSite.CompleteIffRequiredFilled | src/html-export/script.js:406-412 | complete iff every field but the message is non-empty |
| StaticSite.IsEmail | src/html-export/script.js:415-416 | an accepted address has at least five characters and no white space anywhere |
| StaticSite.IsEmailMatchesPattern | src/html-export/script.js:415-419 | accepted iff the address is A@B.C with A, B, C non-empty and free of whitespace and '@' |
| StaticSite.AcceptedHasShape | src/html-export/script.js:415-419 | an address the script accepts is A@B.C with three non-empty runs free of whitespace and '@' |
| StaticSite.ShapeAccepted | src/html-export/script.js:415-419 | every A@B.C built from three such runs is accepted |
| StaticSite.EmailHasOneAt | src/html-export/script.js:415 | an accepted address holds exactly one '@' |
| StaticSite.TodayRefusedOnlyWestOfUtc | src/html-export/script.js:422-429 | the current day is refused iff the zone is west of UTC |
| StaticSite.EarlierDayRefused | src/html-export/script.js:422-429 | every earlier day is refused |
| StaticSite.LaterDayAccepted | src/html-export/script.js:422-429 | every later day passes the date check |
| StaticSite.DayReadingEastOfUtc | src/html-export/script.js:422-429 | at or east of UTC a day is refused iff it is before the local day |
| StaticSite.BookingCheck | src/html-export/script.js:406-429 | required, then e-mail, then date; the first failure alone is reported |
| StaticSite.BookingDateReading | src/html-export/script.js:421-429 | once required fields and e-mail pass: at or east of UTC the booking is refused iff the day is earlier, and the current day is refused iff the zone is west of UTC |
| StaticSite.AppointmentId | src/html-export/script.js:433 | "APT" and a numeral reading as the clock |
| StaticSite.AppointmentIdsDistinct | src/html-export/script.js:433 | different instants give different ids |
| StaticSite.TreatmentName | src/html-export/script.js:438-446 | a known key gives its long name; any other key is shown as given |
| StaticSite.KnownTreatmentNames | src/html-export/script.js:438-446 | the table's entries and the fallback, concretely |
| StaticSite.LoginName | src/html-export/script.js:331 | the name is a prefix of the e-mail without '@'; the whole e-mail when it has no '@' |
| StaticSite.LoginNameOfAddress | src/html-export/script.js:331 | a full address logs in under its local part |
| StaticSite.JsRem | src/html-export/script.js:475 | JavaScript `%`: same sign as the dividend, magnitude below the divisor |
| StaticSite.DisplayHour | src/html-export/script.js:475 | `hour % 12 \|\| 12`: never 0; for hours from 0 up, in 1..12 and congruent mod 12 |
| StaticSite.Meridiem | src/html-export/script.js:474 | "PM" iff the hour is 12 or more; NaN gives "AM" |
| StaticSite.TimePieces | src/html-export/script.js:472 | without ':' the minutes print as "undefined" |
| StaticSite.FormatTime | src/html-export/script.js:471-477 | for any input the text ends with " AM" or " PM" |
| StaticSite.FormatTimeOfClock | src/html-export/script.js:471-477 | "HH:MM": 0 gives 12 AM, 1-11 AM, 12 gives 12 PM, 13-23 give hour-12 PM, minutes copied |
| StaticSite.ClockRoundTrip | src/html-export/script.js:474-475 | the twelve-hour reading with its meridiem gives back the hour |
| StaticSite.Site.constructor | src/html-export/script.js:2-3 | logged out over whatever storage holds |
| StaticSite.Site.Initialize | src/html-export/script.js:13-20 | a saved user is restored and logged in |
| StaticSite.Site.HandleLogin | src/html-export/script.js:316-346 | accepted iff e-mail and password are non-empty; then logged in with the e-mail's local part as name; a refusal changes nothing |
| StaticSite.Site.Logout | src/html-export/script.js:348-354 | storage and memory forget the user; logged out |
| StaticSite.Site.HandleAppointmentBooking | src/html-export/script.js:389-463 | the selected day read as midnight UTC, today as local midnight; refused with the first failing check and nothing saved; otherwise exactly one record with id "APT"+clock appended, earlier ones unchanged, with its treatment display name |
| AppointmentWizard.TimeSlotsDistinct | src/components/pages/AppointmentPage.tsx:20-24 | fourteen distinct slots |
| AppointmentWizard.Set | src/components/pages/AppointmentPage.tsx:86-88 | `handleInputChange` changes only the named field |
| AppointmentWizard.StepOf | src/components/pages/AppointmentPage.tsx:195-415 | the six personal fields are on step 1, the rest on step 2 |
| AppointmentWizard.PersonalGateFields | src/components/pages/AppointmentPage.tsx:121-125 | step 1 can be left iff first name, last name, e-mail and phone are all filled |
| AppointmentWizard.DetailsGateFields | src/components/pages/AppointmentPage.tsx:126-130 | step 2 can be left iff a date is chosen and hospital, treatment and time are all filled |
| AppointmentWizard.OptionalFieldsNeverGate | src/components/pages/AppointmentPage.tsx:120-133 | birth date, address, symptoms and medical history never open or close a gate |
| AppointmentWizard.EditKeepsOtherGate | src/components/pages/AppointmentPage.tsx:121-130 | editing one step's field never changes the other step's gate |
| AppointmentWizard.CalendarDisabled | src/components/pages/AppointmentPage.tsx:369 | disabled iff the day's midnight is before the current instant |
| AppointmentWizard.CalendarPastAndFuture | src/components/pages/AppointmentPage.tsx:369 | earlier days are disabled, later days are enabled |
| AppointmentWizard.CalendarToday | src/components/pages/AppointmentPage.tsx:369 | the current day is enabled only at midnight |
| AppointmentWizard.OtpNumber | src/components/pages/AppointmentPage.tsx:49 | the code lies in 100000..999999 |
| AppointmentWizard.OtpCode | src/components/pages/AppointmentPage.tsx:49 | six digits, no leading zero, reading as the drawn number |
| AppointmentWizard.Wizard.constructor | src/components/pages/AppointmentPage.tsx:42-65 | step 1, empty form, no code sent, a fresh code, loading |
| AppointmentWizard.Wizard.FinishLoading | src/components/pages/AppointmentPage.tsx:67-84 | both lists on success, none on failure; loading ends |
| AppointmentWizard.Wizard.EditField | src/components/pages/AppointmentPage.tsx:86-88 | a text input of the current step changes only its field |
| AppointmentWizard.Wizard.ChooseHospital | src/components/pages/AppointmentPage.tsx:316-323 | the hospital becomes the id of a fetched hospital |
| AppointmentWizard.Wizard.ChooseTreatment | src/components/pages/AppointmentPage.tsx:334-341 | the treatment becomes the id of a fetched treatment |
| AppointmentWizard.Wizard.ChooseTime | src/components/pages/AppointmentPage.tsx:380-386 | the time becomes one of the slots |
| AppointmentWizard.Wizard.SelectDate | src/components/pages/AppointmentPage.tsx:368-369 | a selected date is later than the current day, or the current day at midnight |
| AppointmentWizard.Wizard.NextStep | src/components/pages/AppointmentPage.tsx:120-133 | from step 1 it advances iff the personal gate passes, from step 2 iff the details gate passes; by exactly one; nothing else changes |
| AppointmentWizard.Wizard.PrevStep | src/components/pages/AppointmentPage.tsx:135 | one step back from steps 2 and 3; step stays in 1..4 |
| AppointmentWizard.Wizard.SendOtp | src/components/pages/AppointmentPage.tsx:90-98 | sent iff a phone number is present, which it always is on step 3 |
| AppointmentWizard.Wizard.EnterOtp | src/components/pages/AppointmentPage.tsx:462-467 | the code input takes at most six characters and only before verification |
| AppointmentWizard.Wizard.VerifyOtp | src/components/pages/AppointmentPage.tsx:100-107 | verified iff the entered code equals the drawn code exactly; a mismatch changes nothing |
| AppointmentWizard.Wizard.HandleSubmit | src/components/pages/AppointmentPage.tsx:109-118 | step 4 iff verified; otherwise unchanged |
| AppointmentWizard.Wizard.BookAnother | src/components/pages/AppointmentPage.tsx:585 | back to step 1 with form, code and verification untouched |
| AppointmentWizard.ConfirmedBookingComplete | src/components/pages/AppointmentPage.tsx:109-133 | at step 4 both gates hold, the time is a slot, the hospital and the treatment are fetched ones, and the code was verified |

## Left out

- Rendering, layout, animation and the marketing content of the pages are not modelled. This
  covers the home, dashboard and doctor-dashboard pages and the footer, which have no rules of
  their own. Of the router only the treatment-detail route is modelled
  (`TreatmentDetail.RouteTreatmentId`); the other routes only pick a page.
- The data service (`BaseCrudService`), `alert`, `console`, `setTimeout`, DOM updates and
  `window.location` are not modelled. Service answers are parameters. The three-second
  feedback reset is the method `ResetAfterDelay`. Browser storage in the static script is a
  pair of fields.
- The `loading` flags of the admin dashboard and the list pages are left out. The wizard's
  flag is kept because every action requires it to be clear.
- Only ASCII letters are case-mapped. JavaScript's full Unicode `toLowerCase`/`toUpperCase`
  is not modelled.
- `Text.ParseInt` models leading whitespace, one sign and a decimal digit prefix. Hexadecimal
  `0x` prefixes, `Infinity` and the loss of precision of very long numerals are not modelled.
- `Math.random()` is any real in [0, 1). Floating-point rounding of `100000 + r * 900000` and
  `r * 1000` is not modelled.
- `new Date(...)`, `Date.now()`, `toISOString` and `toLocaleDateString` are not modelled.
  Days are integers and instants are milliseconds. The script's date field comes in as a
  day number (or none when empty), because date-string parsing is left out; the method turns
  it into midnight UTC and the local day and zone offset into local midnight. The `min` attribute the script
  puts on the date input is not modelled either.
- `StaticSite.TreatmentName`: the lookup is a map with the five keys. It does not model keys
  such as `constructor` that a JavaScript object literal inherits from its prototype.
- `TreatmentDetail.RouteTreatmentId`: case-insensitive matching of the prefix is modelled for
  ASCII letters only. The router's percent-decoding of the parameter and trailing slashes are
  not modelled; a segment containing '/' is taken not to match.
- `StaticSite.Site.HandleAppointmentBooking`: the form is taken as given. The
  `event.target.reset()` that clears the DOM form afterwards is not modelled.
- `AppointmentWizard.Wizard.HandleSubmit`: the Confirm button is also disabled until
  verification. The method keeps the handler's own check, so the disabled state adds nothing
  to the model.
- User sign-in for the React pages (`useMember`) is external code. The member is a parameter
  of the header and profile functions.

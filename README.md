# TomoLearn in Dafny

TomoLearn is a Next.js site for learning languages. Most of it is markup.
This project models the parts that hold logic and proves what they
promise:

- **Accounts** (`accounts.dfy`, `auth.dfy`, `bcrypt.dfy`). Registration
  (`POST /api/auth/register`) is a method on a user store: a map from
  normalised email to user record. The credentials sign-in callback
  (`authorize`) is a read-only function over that map. bcrypt is a token
  that carries the cost and salt beside a digest. The digest function
  itself is a parameter, so the property a password verifies against its
  own hash is a proved lemma.
- **Checkout** (`checkout.dfy`, `countdown.dfy`, `payment_methods.dfy`):
  - the order's price arithmetic, which rounds the discount to whole
    rupiah and then adds the tax;
  - the payment page's state: the selected method, the generated QR code,
    the loading flag and the step;
  - the QR code's countdown: its one-second ticks, its `MM:SS` formatting,
    and its warning and expiry tones;
  - the payment-method accordion, in which at most one panel is open.
- **Client-side validators and filters**:
  - the sign-up form's error map and submit gating (`signup.dfy`);
  - the course catalogue's language and level filter (`courses.dfy`);
  - the help centre's FAQ search and accordion (`help.dfy`);
  - the profile page's subscription and course classifiers
    (`profile.dfy`).
- **Small UI state machines**:
  - the home page's testimonial carousel, reward counter, monotone
    section flags and streak dots (`home.dfy`);
  - the footer's newsletter button (`footer.dfy`).

Shared helpers are in three files:

- `wrappers.dfy` holds `Option`.
- `text.dfy` holds JavaScript's `trim`, `toLowerCase`, `includes`,
  `toString` and `padStart`, with their properties.
- `seqs.dfy` holds `Array.prototype.filter` and the subsequence order, with
  their lemmas.

Stateful code becomes a class whose methods change its fields. Timers
(`setTimeout`, `setInterval`) become explicit event methods. A counter of
pending timer events makes explicit that a flag set while waiting is only
up while one of those events is still due. The Jest tests of the countdown
and the pages' own sample data are stated as concrete lemmas or scenario
methods.

One behaviour of the code is easy to miss:

- Sign-in with no email. `authorize` does not stop when no email is sent:
  it lowercases and trims the missing email to the empty key and looks that
  key up (`Auth.LookupKey`). A whitespace-only email registers under the
  same empty key, so a sign-in that sends no email finds that account and
  signs in with its password. See `Auth.BlankEmailSignsInWithoutEmail`.

## Model

| member | source | states |
|---|---|---|
| Text.Lower | src/app/api/auth/register/route.ts:9 | `toLowerCase` keeps the length and maps each character by itself to one that is not upper case, keeping whitespace |
| Text.Trim | src/app/api/auth/register/route.ts:9 | the result is a contiguous slice of the input with only whitespace before and after it; it has no whitespace at either end and is empty exactly for a blank input |
| Text.TrimIdempotent | src/app/api/auth/register/route.ts:9 | trimming twice is trimming once |
| Text.TrimPadded | src/app/api/auth/register/route.ts:9 | a trimmed string followed by any whitespace trims back to itself |
| Text.Contains | src/app/help/page.tsx:61-62 | `includes`: with `Text.ContainsAt` and `Text.ContainsWitness`, it holds exactly when the needle occurs at some position of the haystack |
| Text.IntToString | src/app/payment/CountdownTimer.tsx:28 | `toString` of an integer: at least one character; the decimal digits of a non-negative value, a minus sign before those of its magnitude otherwise |
| Text.PadStart | src/app/payment/CountdownTimer.tsx:28 | `padStart`: the result is the requested width or the input length, whichever is larger, ends with the input, and is filled on the left with the fill character |
| Bcrypt.Hash | src/app/api/auth/register/route.ts:15 | the token records the cost and salt it was made with |
| Bcrypt.VerifyHashed | src/auth.ts:20 | a password always verifies against its own hash, whatever the salt |
| Bcrypt.SaltedHashesDiffer | src/app/api/auth/register/route.ts:15 | two hashes of one password under different salts are different tokens |
| Bcrypt.VerifyOther | src/auth.ts:20-21 | another password verifies exactly when its digest collides under the token's salt and cost |
| Accounts.NormalizeEmail | src/app/api/auth/register/route.ts:9 | the normalised email is lower case and trimmed, and is empty exactly when the input is blank |
| Accounts.LowerThenTrim | src/app/api/auth/register/route.ts:9 | lowering then trimming leaves no upper-case letter and no outer whitespace; lowering keeps blankness |
| Accounts.NormalizeOfNormalized | src/app/api/auth/register/route.ts:9 | an already normalised email is left unchanged |
| Accounts.NormalizeIdempotent | src/app/api/auth/register/route.ts:9 | normalising twice is normalising once |
| Accounts.StoredName | src/app/api/auth/register/route.ts:16 | the name is stored trimmed; it is absent exactly when it was absent or blank, and never stored as the empty string |
| Accounts.InsertKeepsWellFormed | src/app/api/auth/register/route.ts:12-16 | inserting a fresh normalised key with a fresh id keeps every record under its own email with distinct ids, and adds exactly one record |
| Accounts.UserStore.constructor | src/lib/db.ts:7 | the collection starts empty and satisfies the one-record-per-email invariant |
| Accounts.UserStore.Register | src/app/api/auth/register/route.ts:5-19 | missing or empty email or password gives 400 and no change; a known normalised email gives 409 and no change; otherwise exactly one record is added under the normalised email, with the trimmed-or-absent name and the cost-12 hash, and the reply is the new id and the normalised email |
| Accounts.BlankEmailStoredEmpty | src/app/api/auth/register/route.ts:7-9 | a whitespace-only email passes the missing-field test and normalises to the empty key |
| Accounts.TrimPaddedTestEmail | src/app/api/auth/register/route.ts:9 | `"test@example.com  "` trims to `"test@example.com"` |
| Accounts.NormalizeMixedCaseTestEmail | src/app/api/auth/register/route.ts:9 | `"TEST@Example.com  "` normalises to `"test@example.com"` |
| Accounts.NormalizeTestEmail | src/app/api/auth/register/route.ts:9 | `"test@example.com"` is already normalised |
| Accounts.MixedCaseEmailSameKey | src/app/api/auth/register/route.ts:9-13 | both spellings of the test email look up the same record |
| Auth.LookupKey | src/auth.ts:18 | the lookup key is normalised the way registration normalises, and is `""` when no email is sent |
| Auth.Authenticate | src/auth.ts:16-23 | an identity comes back exactly when the key is known, a password was sent and it verifies; it carries the stored id, email and name, with an empty name as absent |
| Auth.FailuresIndistinguishable | src/auth.ts:19-21 | an unknown email and a wrong password give the same null answer |
| Auth.RegisterThenAuthenticate | src/auth.ts:18-22 | after a registration, the same password signs in under any email with the same normalisation and returns the inserted id, the stored email and the stored name |
| Auth.RegisterKeepsOtherSignIns | src/auth.ts:18 | a registration under one key changes no sign-in that looks up another |
| Auth.AliceScenario | src/auth.ts:16-23 | registering alice twice gives the new id and then 409; the first password signs in and the second does not |
| Auth.BlankEmailSignsInWithoutEmail | src/auth.ts:18 | a whitespace-only email registers under the empty key, and a sign-in without an email then finds that record |
| Checkout.Round | src/app/payment/page.tsx:65 | `Math.round(num / den)`: the result is the nearest integer, with halves rounded up |
| Checkout.DiscountAmount | src/app/payment/page.tsx:65 | the discount is `subtotal * percent / 100` rounded to the nearest rupiah |
| Checkout.Prices | src/app/payment/page.tsx:64-67 | the discount is the rounded percentage; the total is the subtotal plus the tax minus the discount; the discounted price is the total minus the tax |
| Checkout.PercentOfAmount | src/app/payment/page.tsx:65 | a percentage from 0 to 100 of a non-negative amount lies between none and all of it |
| Checkout.DiscountWithinPrice | src/app/payment/page.tsx:65-67 | for a non-negative subtotal and a percentage from 0 to 100 the discount is at most the subtotal, and the total lies between the tax and the subtotal plus the tax |
| Checkout.OrderFigures | src/app/payment/page.tsx:64-67 | the page's order (79000, 30 %, tax 1000) gives 23700, 55300 and 56300 |
| Checkout.InstructionsFor | src/app/payment/page.tsx:284-330 | the QR code shows exactly when QRIS is selected and a code was generated; the virtual-account and card blocks show exactly for their method |
| Checkout.PaymentPage.constructor | src/app/payment/page.tsx:29-32 | QRIS selected, not loading, the select step, no code generated |
| Checkout.PaymentPage.SelectMethod | src/app/payment/page.tsx:44-49 | the method becomes the choice; the code is generated when QRIS is chosen and never cleared |
| Checkout.PaymentPage.PayNow | src/app/payment/page.tsx:51-53 | paying sets loading, which disables the pay button, and schedules one completion |
| Checkout.PaymentPage.PaymentTimeout | src/app/payment/page.tsx:54-57 | a completion moves to the success step and clears loading, enabling the pay button |
| Checkout.PaymentPage.PayDisabled | src/app/payment/page.tsx:370 | the pay button is disabled exactly while loading; `Checkout.PaymentPage.PayNow` and `Checkout.PaymentPage.PaymentTimeout` state when that is |
| Checkout.CheckoutWalkthrough | src/app/payment/page.tsx:44-58 | with the accordion wired in: no QR before "Generate QR Code", the card form on the card panel, the QR again on QRIS, the button disabled while paying and the success step after |
| Countdown.Step | src/app/payment/CountdownTimer.tsx:15-23 | a tick lowers the counter by one while it is positive and leaves it alone otherwise |
| Countdown.AfterTicks | src/app/payment/CountdownTimer.tsx:15-23 | `n` interval ticks; `Countdown.AfterTicksClosedForm` gives its closed form |
| Countdown.AfterTicksClosedForm | src/app/payment/CountdownTimer.tsx:15-23 | from a non-negative start, `n` ticks give `max(start - n, 0)`; a non-positive start never moves |
| Countdown.JsRem | src/app/payment/CountdownTimer.tsx:27 | JavaScript's `%` agrees with the Euclidean remainder on non-negative operands and keeps the sign of a negative one |
| Countdown.FormatTime | src/app/payment/CountdownTimer.tsx:25-29 | `formatTime`: floored minutes and the remainder, each padded to two characters; `Countdown.FormatTimeFields` and `Countdown.FormatTimeRoundTrip` show it reads back as the seconds below a hundred minutes |
| Countdown.TwoDigitsOfDigit | src/app/payment/CountdownTimer.tsx:28 | a single digit is padded with one zero |
| Countdown.TwoDigitsOfSmall | src/app/payment/CountdownTimer.tsx:28 | a number below a hundred prints as two digits that read back as it |
| Countdown.FormatTimeFields | src/app/payment/CountdownTimer.tsx:25-29 | below a hundred minutes the text is the padded whole minutes and the padded remaining seconds |
| Countdown.ClockOfFields | src/app/payment/CountdownTimer.tsx:28 | two two-digit fields around a colon form an `MM:SS` clock worth `MM * 60 + SS` seconds |
| Countdown.FormatTimeRoundTrip | src/app/payment/CountdownTimer.tsx:25-29 | for 0 up to 5999 seconds the text is an `MM:SS` clock with `SS` below 60 that stands for exactly that many seconds |
| Countdown.ClockOf | src/app/payment/CountdownTimer.tsx:28 | minutes below a hundred and seconds below sixty give a clock worth `mins * 60 + secs` |
| Countdown.UrgencyOf | src/app/payment/CountdownTimer.tsx:32-33 | expired exactly at or below zero; warning exactly from 1 to 300; calm above 300 |
| Countdown.ExpiredIsWarning | src/app/payment/CountdownTimer.tsx:32-33 | an expired counter is also a warning one; `isWarning` holds exactly when the urgency is not calm |
| Countdown.DisplayTone | src/app/payment/CountdownTimer.tsx:41-62 | digits, track and bar are red when expired, else orange when warning, else blue |
| Countdown.IconTone | src/app/payment/CountdownTimer.tsx:38-39 | the icon is orange exactly when warning (expired included) and blue otherwise |
| Countdown.MessageTone | src/app/payment/CountdownTimer.tsx:68-72 | the message takes the digits' tone, except gray when calm |
| Countdown.Message | src/app/payment/CountdownTimer.tsx:73-75 | each urgency has its own line, and the expiry notice appears exactly when the code has expired |
| Countdown.Display | src/app/payment/CountdownTimer.tsx:46 | `00:00` once expired, the formatted counter otherwise |
| Countdown.DisplayIsClock | src/app/payment/CountdownTimer.tsx:46 | below a hundred minutes every displayed value is an `MM:SS` clock |
| Countdown.CountdownTimer.constructor | src/app/payment/CountdownTimer.tsx:13 | the counter starts at the initial time |
| Countdown.CountdownTimer.Tick | src/app/payment/CountdownTimer.tsx:18-19 | one interval callback applies one step |
| Countdown.TenSeconds | src/app/payment/__tests__/CountdownTimer.test.tsx:17-21 | ten seconds display as `00:10` |
| Countdown.SevenSeconds | src/app/payment/__tests__/CountdownTimer.test.tsx:23-27 | seven seconds display as `00:07` |
| Countdown.FiveMinutesOneSecond | src/app/payment/__tests__/CountdownTimer.test.tsx:31-35 | 301 seconds display as `05:01` |
| Countdown.FiveMinutes | src/app/payment/__tests__/CountdownTimer.test.tsx:38-42 | 300 seconds display as `05:00` |
| Countdown.CountsDown | src/app/payment/__tests__/CountdownTimer.test.tsx:17-29 | from ten, `00:10`, and after three ticks `00:07` |
| Countdown.WarnsUnderFiveMinutes | src/app/payment/__tests__/CountdownTimer.test.tsx:31-44 | from 301, `05:01` in blue, and after one tick `05:00` in orange |
| Countdown.StartsExpired | src/app/payment/__tests__/CountdownTimer.test.tsx:46-49 | from zero, `00:00`, and a tick leaves the counter at zero |
| PaymentMethods.MethodIdsDistinct | src/app/payment/PaymentMethods.tsx:23-56 | the four panel ids are distinct and none is empty |
| PaymentMethods.OpenPanels | src/app/payment/PaymentMethods.tsx:79 | a panel is drawn open exactly when its id is the expanded one |
| PaymentMethods.AtMostOneOpen | src/app/payment/PaymentMethods.tsx:79 | at most one panel is open, exactly the named one when the expanded value is a panel id, and none otherwise |
| PaymentMethods.ButtonsReportTheirPanel | src/app/payment/PaymentMethods.tsx:113-147 | every option button reports the id of the panel it sits in |
| PaymentMethods.Accordion.constructor | src/app/payment/PaymentMethods.tsx:14 | the QRIS panel starts open, and it is the only one |
| PaymentMethods.Accordion.Change | src/app/payment/PaymentMethods.tsx:16-21 | expanding a panel makes it the open one and reports it; collapsing closes every panel and reports nothing; a method's panel that is expanded is then the only open panel; never more than one is open |
| PaymentMethods.Accordion.Press | src/app/payment/PaymentMethods.tsx:113-147 | an option button reports its method and leaves the accordion unchanged |
| SignUp.FieldKey | src/app/signup/page.tsx:20-33 | an input's errors sit under its own key, never under `terms` |
| SignUp.FieldKeysDistinct | src/app/signup/page.tsx:20-33 | two inputs share an error key, or its name, exactly when they are the same input |
| SignUp.With | src/app/signup/page.tsx:22-25 | the named field takes the value and every other field keeps its own |
| SignUp.MatchesEmailPattern | src/app/signup/page.tsx:44 | `/\S+@\S+\.\S+/.test`; the four lemmas below fix its behaviour on blank, simple, dotless and surrounded inputs |
| SignUp.BlankNeverMatches | src/app/signup/page.tsx:44 | a blank email never matches `\S+@\S+\.\S+` |
| SignUp.SimpleEmailMatches | src/app/signup/page.tsx:44 | `a@b.co` matches the pattern |
| SignUp.NoDotFails | src/app/signup/page.tsx:44 | `a@b` does not match it |
| SignUp.SurroundedEmailMatches | src/app/signup/page.tsx:44 | the test is unanchored: `my mail a@b.co` matches |
| SignUp.NameError | src/app/signup/page.tsx:38-40 | "Name is required" exactly when the name is blank |
| SignUp.EmailError | src/app/signup/page.tsx:42-46 | no error exactly for a non-blank email matching the pattern; "required" for a blank one, "valid email" otherwise |
| SignUp.PasswordError | src/app/signup/page.tsx:48-52 | no error exactly from six characters on; "required" for an empty password, "at least 6" for one to five characters |
| SignUp.ConfirmError | src/app/signup/page.tsx:54-56 | no error exactly when the confirmation equals the password; otherwise "Passwords do not match" |
| SignUp.TermsError | src/app/signup/page.tsx:58-60 | no error exactly when the terms are accepted; otherwise "Please accept the terms and conditions" |
| SignUp.AddError | src/app/signup/page.tsx:36-60 | a present message is written under its key; an absent one leaves the map alone |
| SignUp.CollectErrors | src/app/signup/page.tsx:36-60 | each key holds its message when there is one and has no entry otherwise |
| SignUp.CollectEmptyIff | src/app/signup/page.tsx:62-63 | the map is empty exactly when every message is absent |
| SignUp.FormErrors | src/app/signup/page.tsx:35-63 | each of the five keys holds its check's message when that check fails, and has no entry otherwise |
| SignUp.ValidIff | src/app/signup/page.tsx:35-63 | no errors exactly when the name is non-blank, the email is non-blank and matches, the password has six or more characters, the confirmation equals it and the terms are accepted |
| SignUp.RequiredTakesPrecedence | src/app/signup/page.tsx:42-52 | a blank email reports "required", not the format; an empty password reports "required", not the length |
| SignUp.MismatchIndependent | src/app/signup/page.tsx:48-56 | an empty password with a non-empty confirmation reports both a password error and a mismatch |
| SignUp.SixCharactersPass | src/app/signup/page.tsx:50 | a six-character password passes the length check |
| SignUp.SignUpForm.constructor | src/app/signup/page.tsx:10-18 | empty fields, terms unaccepted, not loading, no errors |
| SignUp.SignUpForm.InputChange | src/app/signup/page.tsx:20-33 | only the named field changes; only its error is blanked, and only when it is non-empty; every other error is kept |
| SignUp.SignUpForm.SetAcceptTerms | src/app/signup/page.tsx:273 | the checkbox sets the terms flag and nothing else |
| SignUp.SignUpForm.ToggleTerms | src/app/signup/page.tsx:277 | a click on the drawn box flips the terms flag and nothing else |
| SignUp.SignUpForm.ValidateForm | src/app/signup/page.tsx:35-64 | the error map is replaced by the current form's errors, independent of earlier ones, and the result is true exactly when that map is empty |
| SignUp.SignUpForm.HandleSubmit | src/app/signup/page.tsx:66-73 | the submit validates, and enters loading (one request pending) exactly when there are no errors |
| SignUp.SignUpForm.RequestFinished | src/app/signup/page.tsx:75-77 | the simulated request's timer clears loading |
| SignUp.SignUpForm.SubmitDisabled | src/app/signup/page.tsx:308 | the submit button is disabled exactly while loading; `SignUp.SignUpForm.HandleSubmit` and `SignUp.SignUpForm.RequestFinished` state when that is |
| Courses.Listed | src/app/courses/page.tsx:226-238 | every listed course passes both the language and the level condition; every catalogue course passing both is listed; the list is a subsequence of the catalogue |
| Courses.MatchesBoth | src/app/courses/page.tsx:229-236 | the callback a course passes exactly when it passes the language and the level condition; `Courses.Listed` and `Courses.ListedIsTwoFilters` state what filtering with it keeps |
| Courses.AllListsEverything | src/app/courses/page.tsx:229-233 | `'all'` and `'all'` list the whole catalogue |
| Courses.ListedIsTwoFilters | src/app/courses/page.tsx:226-238 | the effect's two successive filters, skipped for `'all'`, give the listed courses |
| Courses.CountNoun | src/app/courses/page.tsx:358 | the noun is "course" exactly for one match and "courses" otherwise |
| Courses.NoResultsIff | src/app/courses/page.tsx:489 | the empty panel shows exactly when no course passes both conditions |
| Courses.PerLessonXp | src/app/courses/page.tsx:470 | `Math.floor(totalXp / lessons)`: the largest `r` with `r * lessons <= totalXp` |
| Courses.CatalogueHasLessons | src/app/courses/page.tsx:111-224 | every catalogue course has lessons, so its per-lesson figure is defined |
| Courses.CatalogueIdsDistinct | src/app/courses/page.tsx:111-224 | the catalogue ids are distinct |
| Courses.Narrow | src/app/courses/page.tsx:226-238 | the effect body's narrowing yields exactly the listed courses |
| Courses.CoursesPage.constructor | src/app/courses/page.tsx:27-30 | both selections `'all'`, nothing listed before the first effect run |
| Courses.CoursesPage.ApplyFilters | src/app/courses/page.tsx:226-238 | the shown list becomes the catalogue courses matching the selections |
| Courses.CoursesPage.SelectLanguage | src/app/courses/page.tsx:226-238 | a new language, then the effect: the list matches it and the kept level |
| Courses.CoursesPage.SelectLevel | src/app/courses/page.tsx:226-238 | a new level, then the effect: the list matches it and the kept language |
| Courses.CoursesPage.ClearFilters | src/app/courses/page.tsx:497-500 | both selections back to `'all'` and the whole catalogue listed |
| Courses.FilterCatalogue | src/app/courses/page.tsx:111-224 | filtering the catalogue keeps each of the eight courses that passes, in order |
| Courses.SpanishListed | src/app/courses/page.tsx:226-238 | Spanish at any level lists the two Spanish courses |
| Courses.AdvancedSpanishListed | src/app/courses/page.tsx:226-238 | advanced Spanish lists only Advanced Spanish |
| Courses.NothingKoreanAdvanced | src/app/courses/page.tsx:226-238 | advanced Korean lists nothing |
| Courses.BrowseSpanish | src/app/courses/page.tsx:226-238 | on the page: Spanish shows ids 2 and 8, then advanced shows id 8 |
| Courses.EmptyUntilCleared | src/app/courses/page.tsx:489-500 | advanced Korean shows the empty panel; clearing lists all eight courses |
| Help.FilteredFaqs | src/app/help/page.tsx:60-65 | an FAQ is kept exactly when its lowercased question or answer contains the lowercased term and the category is `'All'` or its own; the order is kept |
| Help.MatchesSearch | src/app/help/page.tsx:61-62 | the lowercased term occurs in the lowercased question or answer; `Help.CaseInsensitive` shows letter case in the term does not matter |
| Help.MatchesCategory | src/app/help/page.tsx:63 | the category is `'All'` or the FAQ's own; `Help.EmptySearchKeepsCategory` shows it alone decides for the empty term |
| Help.LowerIdempotent | src/app/help/page.tsx:61-62 | lowering twice is lowering once |
| Help.CaseInsensitive | src/app/help/page.tsx:61-62 | two terms differing only in letter case select the same FAQs |
| Help.LowercasedTermSameResult | src/app/help/page.tsx:61-62 | typing the term in lower case changes nothing |
| Help.EmptySearchKeepsCategory | src/app/help/page.tsx:60-65 | the empty term keeps every FAQ of the category, and with `'All'` the whole list |
| Help.NoResultsIff | src/app/help/page.tsx:137 | "No results found" shows exactly when no FAQ passes both tests |
| Help.Toggled | src/app/help/page.tsx:67-69 | the expanded question collapses to none; any other one becomes the expanded one |
| Help.ExpandedAmong | src/app/help/page.tsx:173 | at most one question is drawn expanded: the expanded index, when it is in range |
| Help.ToggleTwice | src/app/help/page.tsx:67-69 | toggling one question twice returns to none or to that question expanded; from another question it ends with none |
| Help.HelpCenter.constructor | src/app/help/page.tsx:7-9 | empty search, category `'All'`, nothing expanded |
| Help.HelpCenter.SetSearchTerm | src/app/help/page.tsx:7 | the term changes; the category and the expanded index are kept |
| Help.HelpCenter.SetActiveCategory | src/app/help/page.tsx:8 | the category changes; the term and the expanded index are kept |
| Help.HelpCenter.ToggleFaq | src/app/help/page.tsx:67-69 | a click collapses the expanded question and expands any other |
| Help.AccordionClicks | src/app/help/page.tsx:153 | opening a question and clicking it again closes it; clicking another leaves only that one open |
| Profile.ProgressColor | src/app/profile/page.tsx:162-167 | emerald exactly at 100; otherwise blue from 75, yellow from 50 to 74, gray below 50 |
| Profile.ProgressColorClass | src/app/profile/page.tsx:162-167 | each bar colour's Tailwind class; with `Profile.ProgressColor` it gives `getProgressColor` |
| Profile.OverHundredIsBlue | src/app/profile/page.tsx:162-167 | progress above 100 is blue, not emerald |
| Profile.StatusOf | src/app/profile/page.tsx:169-179 | completed exactly at 100 whatever the status; otherwise paused exactly for `'paused'`; otherwise active |
| Profile.GetStatusText | src/app/profile/page.tsx:175-179 | "Completed" exactly at 100; "Paused" exactly below 100 with status `'paused'`; "Active" exactly below 100 with any other status |
| Profile.GetStatusBadge | src/app/profile/page.tsx:169-173 | the emerald badge exactly at 100; the orange one exactly below 100 with status `'paused'`; the blue one exactly below 100 with any other status |
| Profile.BadgeMatchesText | src/app/profile/page.tsx:169-179 | badge and text share one case split: two courses get the same text exactly when they get the same badge; "Completed" exactly at 100 |
| Profile.CompletedStatusBelowHundredIsActive | src/app/profile/page.tsx:169-179 | a `'completed'` status at 99 % reads "Active" |
| Profile.LanguageName | src/app/profile/page.tsx:181-199 | a known language gets its name and an unknown one comes back unchanged |
| Profile.LanguageFlag | src/app/profile/page.tsx:181-199 | a known language gets its flag and an unknown one the globe |
| Profile.GlobeMarksUnknown | src/app/profile/page.tsx:181-199 | the two tables know the same languages, and the globe appears exactly for the unknown ones |
| Profile.ActiveSubscriptions | src/app/profile/page.tsx:202 | exactly the active entries, in the object's order |
| Profile.ExpiringSoon | src/app/profile/page.tsx:203 | exactly the active entries with at most seven days left, a subsequence of the active ones |
| Profile.ExpiringSoonIsOneFilter | src/app/profile/page.tsx:202-203 | the two chained filters equal one filter on both conditions |
| Profile.StatusDot | src/app/profile/page.tsx:284 | amber exactly when some active subscription expires within a week; emerald when some is active and none expire soon; gray when none is active |
| Profile.BannerTitle | src/app/profile/page.tsx:316-326 | no banner exactly when nothing expires soon; the singular title exactly for one, the plural for more |
| Profile.BannerMessage | src/app/profile/page.tsx:316-326 | no sentence exactly when nothing expires soon; for one, it names the language and its days; for more, it gives their count |
| Profile.HasActiveSubscription | src/app/profile/page.tsx:377 | true only for an active entry of that language; an unknown language is never active; with distinct keys, exactly when such an entry exists |
| Profile.ActionFor | src/app/profile/page.tsx:421-446 | renew exactly without an active subscription; otherwise "Completed" exactly at 100 and "Continue Learning" below |
| Profile.CourseActionOf | src/app/profile/page.tsx:377-440 | a card offers renewal exactly when the subscription to its language is not active; "Completed" exactly when it is active and the course is at 100 |
| Profile.ResumeShown | src/app/profile/page.tsx:442 | "Resume Course" shows exactly for a paused course with an active subscription; `Profile.MockCourseActions` shows it hidden for the sample French course |
| Profile.MockActive | src/app/profile/page.tsx:20-45 | the sample user's English and Japanese subscriptions are the active ones |
| Profile.MockExpiring | src/app/profile/page.tsx:20-45 | only Japanese expires soon |
| Profile.MockBanner | src/app/profile/page.tsx:284-326 | the sample user sees the amber dot and the singular banner title |
| Profile.MockBannerMessage | src/app/profile/page.tsx:316-326 | the sentence says the Japanese subscription expires in 5 days |
| Profile.MockSubscribed | src/app/profile/page.tsx:377 | English and Japanese count as subscribed, Spanish and French do not |
| Profile.MockCourseActions | src/app/profile/page.tsx:421-446 | the English and Japanese courses continue, the Spanish and French ones must be renewed, the paused French course shows no Resume button and reads "Paused" |
| Home.Rotate | src/app/contents/Home.tsx:152-157 | a tick moves to the next testimonial, wrapping to the first after the last, always in range |
| Home.Rotations | src/app/contents/Home.tsx:152-157 | `n` interval ticks; the four lemmas below state how ticks compose, move on, stay in range and come round |
| Home.RotationsAdd | src/app/contents/Home.tsx:152-157 | `a` ticks then `b` ticks are `a + b` ticks |
| Home.RotationsUp | src/app/contents/Home.tsx:152-157 | before the wrap, `n` ticks move `n` places on |
| Home.RotationsInRange | src/app/contents/Home.tsx:152-157 | any number of ticks keeps the position in range |
| Home.FullRoundReturns | src/app/contents/Home.tsx:152-157 | as many ticks as testimonials return to the start |
| Home.HighlightedDots | src/app/contents/Home.tsx:543-547 | one dot per testimonial, highlighted exactly for the current one |
| Home.ExactlyOneHighlighted | src/app/contents/Home.tsx:543-547 | exactly one dot is highlighted |
| Home.AfterClaims | src/app/contents/Home.tsx:307 | the coins after `k` claims; `Home.AfterClaimsClosedForm` gives its closed form |
| Home.AfterClaimsClosedForm | src/app/contents/Home.tsx:307 | `k` claims add `50 * k` coins |
| Home.ClaimsFromStart | src/app/contents/Home.tsx:307 | from the initial 1250 coins, `k` claims give `1250 + 50 * k` |
| Home.StreakDots | src/app/contents/Home.tsx:275-279 | seven dots, dot `i` filled exactly when `i < streakDays` |
| Home.StreakDotsArePrefix | src/app/contents/Home.tsx:275-279 | a filled dot has only filled dots before it |
| Home.FullWeekStreak | src/app/contents/Home.tsx:275-279 | the initial seven-day streak fills every dot |
| Home.HomeCoursesPerLesson | src/app/contents/Home.tsx:445 | the three course cards show 83, 111 and 166 XP per lesson |
| Home.HomePage.constructor | src/app/contents/Home.tsx:12-23 | a seven-day streak, the first testimonial, 1250 coins, and every section hidden |
| Home.HomePage.NextTestimonial | src/app/contents/Home.tsx:152-157 | the interval advances the carousel by one rotation and leaves the rest alone |
| Home.HomePage.SelectTestimonial | src/app/contents/Home.tsx:543-547 | a dot click shows that testimonial |
| Home.HomePage.ClaimBonus | src/app/contents/Home.tsx:307 | a claim adds exactly 50 coins |
| Home.HomePage.SectionObserved | src/app/contents/Home.tsx:36-41 | an intersecting entry sets only its section's flag; no flag ever goes back to false; other sections are unchanged |
| Home.HomeScenario | src/app/contents/Home.tsx:152-157 | two ticks show the third testimonial, a third tick the first again; two claims give 1350 coins |
| Footer.ButtonLabel | src/app/components/Footer.tsx:102 | "Subscribed!" exactly when subscribed, "Subscribe" otherwise |
| Footer.Newsletter.constructor | src/app/components/Footer.tsx:7-8 | an empty input and the flag down |
| Footer.Newsletter.SetEmail | src/app/components/Footer.tsx:94 | typing changes the input only |
| Footer.Newsletter.Subscribe | src/app/components/Footer.tsx:10-17 | a blank email changes nothing; any other raises the flag, empties the input and starts one timer; nothing is recorded |
| Footer.Newsletter.ResetTimeout | src/app/components/Footer.tsx:15 | the timer puts the flag back down and leaves the input alone |
| Footer.Newsletter.Label | src/app/components/Footer.tsx:102 | the button shows `Footer.ButtonLabel` of the flag: "Subscribed!" exactly while subscribed |
| Footer.SubscribeScenario | src/app/components/Footer.tsx:10-17 | spaces alone do not subscribe; an address does and empties the input; the timer restores "Subscribe" |

## Left out

- Accounts and Auth:
  - The MongoDB client, the `getDb` connection, JSON parsing and `NextResponse` are not modelled. The store is an in-memory map. The unique index (`src/lib/db.ts:7`) appears only as the invariant that each key holds its own record.
  - The race between `findOne` and `insertOne`: the model is sequential.
  - `createdAt`, a clock reading, is not stored.
  - The id is a counter, not an `ObjectId`. `String(insertedId)` is the counter itself.
  - The NextAuth session wiring, the sign-in page config and the JWT strategy are not modelled.
  - JSON values other than strings or absent, such as a number sent as the email, are not modelled.
- Text.Lower: lowers ASCII letters only. `toLowerCase` covers all Unicode letters.
- SignUp.PasswordError: counts code points. JavaScript's `length` counts UTF-16 units, so the two differ for characters outside the Basic Multilingual Plane.
- Bcrypt.Hash: the digest (EksBlowfish) is a parameter and the salt an argument. There is no randomness, no 72-byte truncation of the password and no constant-time compare.
- Auth.Authenticate: a call without a password is modelled as a failed sign-in. In the source, `bcrypt.compare` throws on it.
- Profile.LanguageName, Profile.LanguageFlag, Profile.HasActiveSubscription: a key such as `"constructor"` that JavaScript finds on every object's prototype is treated as unknown.
- Checkout and Countdown:
  - The floating-point progress value (`CountdownTimer.tsx:31`) is left out. It is NaN for an initial time of 0.
  - The order summary, the currency and date formatting, `numberToWords`, the invoice number from `Date.now()` and the clipboard are foreign formatting or browser APIs.
  - Countdown.CountdownTimer.Tick: the real one-second timing is left out. A tick is an explicit event.
  - The same holds for Checkout.PaymentPage.PaymentTimeout, SignUp.SignUpForm.RequestFinished and Footer.Newsletter.ResetTimeout. An earlier timer firing early clears the flag even though a later one is still pending, as in the source.
- The timers' wall-clock delays: 2 s, 1.5 s, 3 s, 5 s and 1 s.
- The IntersectionObserver set-up and teardown in `Home.tsx`: the observer callback is an explicit event.
- Display-only data:
  - the FAQ texts: the filter is proved over any list;
  - the courses' subtitle, duration and colour;
  - the profile's static user fields;
  - the testimonials' rendering.
- Courses.PerLessonXp: requires `lessons > 0`. JavaScript would give `Infinity` or `NaN`, but every catalogue course has lessons (`Courses.CatalogueHasLessons`).
- The help page keeps `expandedFaq` as an index into the filtered list. A search that changes the list leaves it as it is.
- The HTML `required` attributes of the form inputs are not modelled. `validateForm` is modelled as written.
- The sign-in page and the simulated Google sign-up: neither calls the register or authorize code.
- Purely presentational files, such as the terms, about, community and course-detail pages.

# Coding Sprout — registration and payment lifecycle, in Dafny

This project models the core of the Coding Sprout web site. Coding Sprout is a
children's coding school. Parents register students for classes and pay by card
through Stripe or through a charter school. Sponsors pay for other students.
Admins manage classes, events, blog posts and registrations.

The database tables (classes, registrations, students, profiles, events,
gallery, contact messages, blog posts, sponsorships, admin users) are maps from
row id to row. They are fields of one `Store.Database` object, together with
an outbox of the emails sent. Each server action and route handler is a
method that `modifies` that object. Its postcondition gives the whole new
state, as `db.Snapshot() == old(db.Snapshot()).(table := ...)`, so
"nothing else changes" is part of every contract.

Answers from services outside the site are parameters of the methods:

- The database's error for a write (`dbFails`, `insertFails`, `dbError`).
- Stripe's answer when a checkout session is created (`session`: `None` when
  the call threw).
- The Stripe signature check (`verified`).
- The SHA-256 digest (`digest`), the random bytes of a session token
  (`random`), and the clock (`now`).

The payment lifecycle is modelled as the code writes it:

- Nothing increments `spots_taken`.
- The webhook, the success page and the admin status change overwrite
  `payment_status` without reading it first.
- The cancel page deletes a row only while it is still `pending`.
- The duplicate check of `registerForClass` uses `.single()`. It therefore
  stops a registration only when exactly one earlier row matches
  (`Lifecycle.AlreadyRegistered`). With two or more matching rows, the new
  row is inserted.
- The older `/api/checkout` route inserts without a capacity or duplicate
  check. Its session metadata names the row `registration_id`, which the
  webhook does not read (`StripeWebhook.OldRouteSessionsIgnored`).

The client components are classes whose fields are the component's React
state. Their handlers are methods. The pure helpers are functions, each with
lemmas about it: the price tiers, the seat counts, the card, expiry, CVV and
ZIP formatters, slug and anchor-id generation, hex encoding, the query-string
filter, nav matching and the multi-select toggles. The form-to-server
channels are lemmas too: booleans sent as `"true"`/`"false"`, lists sent as
JSON, and the `id` field that selects update or insert. Each lemma states
that the server reads back what the form sent.

## Model

| member | source | states |
|---|---|---|
| Types.ParseStatus | lib/types.ts:94 | A stored status text names exactly one of the five payment statuses, and only those five texts are accepted |
| Types.ParseMethod | lib/types.ts:93 | Exactly "stripe" and "charter_school" are payment methods, each naming one method |
| Types.ParseRole | lib/types.ts:31 | Exactly "parent", "admin" and "instructor" are roles |
| Types.AgeGroupLabel | lib/types.ts:18-23 | Every age group has a non-empty label |
| Types.AgeGroupLabelsDistinct | lib/types.ts:18-23 | No two age groups share a label |
| Types.GradeLevels | lib/types.ts:183-198 | Fourteen grades, pairwise distinct, TK first and 12th last |
| Store.SendEmail | lib/email.tsx:230-247 | Sending an email appends it to the outbox and changes nothing else |
| Registrations.DuplicateCheckAfterInsert | app/actions/registrations.ts:38-43 | Inserting a row for a class and student adds exactly its id to the rows the duplicate query selects, and afterwards `.single()` sees an existing registration iff no row matched before |
| Registrations.DuplicateRefusedOnlyOnce | app/actions/registrations.ts:38-47 | With a free spot, a second registration for the same class and student is refused iff there was no earlier row; once one earlier row and the new one exist, a third passes every guard |
| Lifecycle.SetPaid | app/checkout/success/page.tsx:22-28 | The named row becomes paid and confirmed, whatever its status was; its other columns and every other row are unchanged; no row appears or disappears |
| Lifecycle.SetPaidWithIntent | app/api/webhooks/stripe/route.ts:101-108 | As SetPaid, and the row's payment intent id becomes the session's |
| Lifecycle.SetStatus | app/actions/admin.ts:135 | The given status is written to the named row alone, without reading the old one |
| Lifecycle.SetIntent | app/actions/registrations.ts:106 | Only the stripe_payment_intent_id of that row changes |
| Lifecycle.DeleteIfPending | app/checkout/cancel/page.tsx:17 | A row is removed iff it is the named row and is pending; every remaining row is as it was |
| Lifecycle.DeleteIfPendingIdempotent | app/checkout/cancel/page.tsx:17 | Cancelling twice is the same as cancelling once |
| Lifecycle.CancelUndoesPendingInsert | app/checkout/cancel/page.tsx:16-18 | Cancelling a just-inserted pending row gives back the table from before the insert |
| Lifecycle.CancelAfterPaymentKeepsRow | app/checkout/cancel/page.tsx:17 | After the webhook or the success page has marked a row paid, the cancel page deletes nothing |
| Lifecycle.SetPaidWithIntentIdempotent | app/api/webhooks/stripe/route.ts:101-108 | A repeated webhook delivery leaves the table as the first delivery left it |
| Lifecycle.SuccessAndWebhookCommute | app/checkout/success/page.tsx:22-28 | The success page and the webhook give the same table in either order |
| Lifecycle.SetStatusLastWins | app/actions/admin.ts:135 | Of two admin status changes to a row, the last one wins and nothing else differs |
| Registrations.Cents | app/actions/registrations.ts:87 | `Math.round(amount * 100)`: the nearest whole number of cents, with halves rounded up |
| Registrations.SessionMetadata | app/actions/registrations.ts:96-102 | The card session carries the new row's id under "registrationId" and no "type" key |
| Registrations.GuardError | app/actions/registrations.ts:14-47 | Guards in order: not authenticated, class not found, class full (spots_taken >= max_spots), then exactly one earlier row for the class and student; no error iff all four pass |
| Registrations.CardRow | app/actions/registrations.ts:60-68 | The card row is stripe/pending, for the caller as parent, with the submitted amount |
| Registrations.CharterRow | app/actions/registrations.ts:119-129 | The charter row is charter_school/charter_pending and carries the school name and contact |
| Registrations.RegisterForClass | app/actions/registrations.ts:7-152 | A guard failure returns its message and writes nothing; an insert error writes nothing; the card path inserts one pending row, requests a session in cents that names the row, then writes only the session id to that row, or returns "Payment processing failed" and keeps the pending row; the charter path inserts one charter_pending row and mails the parent when possible; the classes table is never written |
| CheckoutRoute.SessionMetadata | app/api/checkout/route.ts:60-65 | The old route's metadata uses "registration_id" and has neither "registrationId" nor "type" |
| CheckoutRoute.PendingRow | app/api/checkout/route.ts:22-31 | The row records the caller in user_id, not parent_id, and is pending in both status columns |
| CheckoutRoute.Post | app/api/checkout/route.ts:5-73 | No user gives 401 and no write; a body that does not parse gives 500 and no write; an insert error gives 500 and no session; otherwise the row is inserted whatever the capacity and existing rows, and the response is the session id and url, or 500 |
| StripeWebhook.Dispatch | app/api/webhooks/stripe/route.ts:27-45 | Only completed sessions are handled; a "sponsorship" type wins over a registrationId; a truthy registrationId goes to the registration handler with that id |
| StripeWebhook.CustomerNameSplit | app/api/webhooks/stripe/route.ts:60-61 | The first name and the last name derived from a customer name put the name back together |
| StripeWebhook.Amount | app/api/webhooks/stripe/route.ts:59 | amount_total / 100, or 0 when missing |
| StripeWebhook.SponsorFirstName | app/api/webhooks/stripe/route.ts:60 | Metadata first name, else the first word of the customer's name, else "" |
| StripeWebhook.SponsorLastName | app/api/webhooks/stripe/route.ts:61 | Metadata last name, else the rest of the customer's name, else "" |
| StripeWebhook.SponsorEmail | app/api/webhooks/stripe/route.ts:80 | The thank-you address is the metadata email when truthy, else the customer's email when truthy, else none; never "" |
| StripeWebhook.SponsorshipRow | app/api/webhooks/stripe/route.ts:58-72 | The row's amount, names, email ("" when none), student and organization names (null when empty), status "completed", method "stripe" and payment intent; the four billing columns are the customer's address fields, null when empty or when there is no customer |
| StripeWebhook.RegistrationMails | app/api/webhooks/stripe/route.ts:119-160 | Two emails to the parent's address iff the updated row exists and its parent has an email, else none |
| StripeWebhook.HandleClassRegistration | app/api/webhooks/stripe/route.ts:98-165 | On success, SetPaidWithIntent on the row plus the two emails; on a database error, nothing |
| StripeWebhook.HandleSponsorship | app/api/webhooks/stripe/route.ts:53-93 | On success, one new sponsorship row plus the thank-you email when there is an address; on a database error, nothing |
| StripeWebhook.Post | app/api/webhooks/stripe/route.ts:10-48 | No signature or a failed verification gives 400 and no write; every verified event is acknowledged; an ignored event or a database error writes nothing; the registration route gives SetPaidWithIntent on that row plus RegistrationMails and nothing else; the sponsorship route adds one new SponsorshipRow plus the thank-you email when there is an address, and nothing else |
| StripeWebhook.CardSessionsReachRegistration | app/actions/registrations.ts:96-102 | Sessions opened by registerForClass are routed to the registration handler with their row's id |
| StripeWebhook.OldRouteSessionsIgnored | app/api/checkout/route.ts:60-65 | Sessions opened by the old checkout route are never routed anywhere |
| CheckoutSuccess.Render | app/checkout/success/page.tsx:8-44 | No registration_id redirects to /classes without a write; a session_id marks the row paid/confirmed; no session_id writes nothing; a missing row redirects to /classes |
| CheckoutCancel.Render | app/checkout/cancel/page.tsx:7-18 | With a registration_id, DeleteIfPending on that id; without one, nothing; non-pending rows and other ids are kept |
| AdminActions.StaffGate | app/actions/admin.ts:13-22 | Passes iff the user is signed in with an admin or instructor profile; otherwise "Not authenticated" or "Not authorized" |
| AdminActions.AdminGate | app/actions/admin.ts:125-133 | Passes iff the user is signed in with an admin profile |
| AdminActions.AdminGateStricter | app/actions/admin.ts:131-133 | The admin gate implies the staff gate; an instructor passes the staff gate and fails the admin gate |
| AdminActions.OptionalFloat | app/actions/admin.ts:34-35 | A blank optional price is stored as null |
| AdminActions.OptionalInt | app/actions/admin.ts:93 | A blank optional count is stored as null |
| AdminActions.BuildClassData | app/actions/admin.ts:25-42 | The flags are true iff their text is "true"; blank end date, zoom link, location and optional prices become null; the grade list is the parsed JSON |
| AdminActions.ClassRowOf | app/actions/admin.ts:46-50 | The saved row carries the form's data and the spots_taken it is given |
| AdminActions.SaveClass | app/actions/admin.ts:6-63 | The gate fails with no write; unparsable grade JSON throws; a database error, or a missing required column on an insert or on the update of an existing class, gives "Failed to save class" with no write; with an id only that class is rewritten, keeping its spots_taken, and an id naming no class writes nothing; without an id a new class gets spots_taken 0; every other table is untouched |
| AdminActions.BuildEventData | app/actions/admin.ts:83-95 | Blank times and location become null, the flags are true iff "true", and blank price and attendee limit become null |
| AdminActions.EventRowOf | app/actions/admin.ts:99-103 | The saved event keeps the attendee count it is given |
| AdminActions.SaveEvent | app/actions/admin.ts:65-116 | Same shape as SaveClass: a refused write or database error gives "Failed to save event" with no write; an update keeps current_attendees and an id naming no event writes nothing; an insert starts at 0 |
| AdminActions.UpdateRegistrationStatus | app/actions/admin.ts:118-145 | Admins only; a status outside the five values or a database error gives "Failed to update registration"; otherwise SetStatus on that row |
| AdminActions.DeleteGalleryItem | app/actions/admin.ts:147-175 | Admins only; removes that gallery item and nothing else |
| AdminActions.MarkRead | app/actions/admin.ts:183 | Only the message's is_read becomes true |
| AdminActions.MarkReadIdempotent | app/actions/admin.ts:183 | Marking a message read twice is marking it once |
| AdminActions.MarkMessageAsRead | app/actions/admin.ts:177-189 | No role check; MarkRead on the messages table, or no write on a database error |
| RegistrationActions.ButtonStatusesParse | components/admin/registration-actions.tsx:18 | "charter_approved" and "refunded" are the statuses CharterApproved and Refunded |
| RegistrationActions.ResultToast | components/admin/registration-actions.tsx:19-23 | The success text, else the action's error, else the fixed fallback |
| RegistrationActions.RegistrationActionsState.HandleApprove | components/admin/registration-actions.tsx:16-25 | Writes charter_approved without reading the current status when the admin gate and database allow; isLoading is false afterwards whatever the result |
| RegistrationActions.RegistrationActionsState.HandleReject | components/admin/registration-actions.tsx:27-36 | Writes refunded on the same terms |
| Forms.BoolRoundTrip | components/admin/class-form.tsx:31-33 | `String(b) === "true"` recovers b |
| Forms.LookupFirst | app/actions/admin.ts:24 | `formData.get` gives nothing iff no entry has the name, else the value of the first entry that does |
| Forms.LookupAt | app/actions/admin.ts:24 | The first entry with a name is the one `get` returns |
| Forms.LookupAppend | components/volunteer-form.tsx:25 | Appending an entry changes `get` only for a name that had no entry |
| Forms.FormData.Append | components/admin/class-form.tsx:31-38 | `append` adds the entry at the end |
| Json.ParseChars | app/actions/admin.ts:28 | A successful string parse consumes input |
| Json.EscapeRoundTrip | components/admin/class-form.tsx:34 | Parsing an escaped string and its closing quote gives the string back and leaves the rest |
| Json.ItemsRoundTrip | components/admin/class-form.tsx:34 | The elements of a non-empty list parse back to the list |
| Json.StringifyRoundTrip | components/admin/class-form.tsx:34 | `JSON.parse(JSON.stringify(xs))` is xs for every list of strings |
| MultiSelect.Without | components/admin/class-form.tsx:86 | The filter removes x and keeps every other value |
| MultiSelect.WithoutKeepsOthers | components/volunteer-form.tsx:79 | The filter removes every occurrence of x; the others keep their order and their count |
| MultiSelect.WithoutAbsent | app/intake/page.tsx:116 | Filtering out an absent value changes nothing |
| MultiSelect.WithoutAppend | app/intake/page.tsx:116 | Filtering out x after appending x is filtering before it |
| MultiSelect.CheckedChange | components/admin/class-form.tsx:82-87 | Checking appends the value; unchecking removes every occurrence and keeps the others |
| MultiSelect.Toggle | app/intake/page.tsx:115-116 | Toggling flips membership of the option and keeps the others |
| MultiSelect.ToggleTwice | app/intake/page.tsx:116 | Toggling an absent option twice restores the list |
| MultiSelect.ToggleKeepsOrder | app/intake/page.tsx:116 | The other elements keep their relative order |
| Text.LowerChar | app/actions/admin-auth.ts:43 | An ASCII capital maps to the lower-case letter 32 code points above it; every other character is kept |
| Text.Lower | app/actions/admin-auth.ts:43 | `toLowerCase` character by character, length kept |
| Text.DigitsOnly | components/donate/donation-form.tsx:97 | `replace(/\D/g, "")`: only digits remain, no longer than the input; an all-digit text is kept and a text without digits becomes "" |
| Text.Take | components/donate/donation-form.tsx:98 | `substring(0, n)`: the prefix of length min(n, length) |
| Text.Split | app/api/webhooks/stripe/route.ts:60 | `split(" ")`: at least one piece, and no piece contains the separator |
| Text.JoinSplit | app/api/webhooks/stripe/route.ts:61 | Joining the pieces with the separator restores the text |
| Text.SplitPieces | app/api/webhooks/stripe/route.ts:60-61 | A text without the separator is one piece, otherwise at least two |
| Text.HexDigitValue | app/actions/admin-auth.ts:13 | A hex digit's value is the number it was made from |
| Numbers.DigitRun | app/actions/admin.ts:36 | The leading digit run that `parseInt` reads is maximal |
| Numbers.TrimStart | app/actions/admin.ts:33 | The result is a suffix of the input that does not start with whitespace, and everything dropped is whitespace |
| Numbers.IntOf | app/actions/admin.ts:36 | After the sign, `parseInt` yields a number iff the text starts with a digit |
| Numbers.ParseInt | app/actions/admin.ts:36 | `parseInt` succeeds iff a digit follows the optional sign after leading whitespace |
| Numbers.ParseIntReads | app/actions/admin.ts:36 | Whitespace, an optional "-", leading zeros, the digits of n and any text not starting with a digit parse as ±n |
| Numbers.ParseFloat | app/actions/admin.ts:33 | `parseFloat` succeeds whenever a digit follows the optional sign |
| Numbers.NatTextValue | components/classes/classes-grid.tsx:108 | The decimal text of n reads back as n |
| Numbers.IntTextRoundTrip | components/classes/classes-grid.tsx:108 | `parseInt(String(n))` is n for every integer |
| Numbers.FloatWithoutFraction | app/actions/admin.ts:33-36 | On text whose digit run is not followed by ".", `parseInt` succeeds and `parseFloat` gives the same value |
| Numbers.IntTextFloat | components/classes/class-registration-form.tsx:45 | `parseFloat(String(n))` is n for every integer amount |
| ClassForm.AppendedValues | components/admin/class-form.tsx:31-34 | The three flags are sent as String(bool) and the grades as their JSON text |
| ClassForm.PlacementValues | components/admin/class-form.tsx:188-211 | Only the zoom link is sent for an online class and only the location otherwise; "id" is sent iff editing |
| ClassForm.SubmitRoundTrip | components/admin/class-form.tsx:30-38 | saveClass reads back the same flags and grade list, null for the input not rendered, and an id iff editing |
| ClassForm.SubmitToast | components/admin/class-form.tsx:42-51 | A success toast iff the action succeeded; otherwise the action's error when non-empty |
| ClassForm.ClassFormState.constructor | components/admin/class-form.tsx:22-26 | A new class form starts with every toggle off and no grades; an edit starts from the class |
| ClassForm.ClassFormState.OnGradeCheckedChange | components/admin/class-form.tsx:82-87 | The grade list becomes CheckedChange of the old list, and nothing else changes |
| ClassForm.ClassFormState.HandleSubmit | components/admin/class-form.tsx:28-54 | Sends exactly the submitted entries, whose flags and grades saveClass reads back and whose id is sent iff editing; the database ends as saveClass leaves it for those entries (gate, throw, refused write, update keeping spots_taken or insert with 0); shows SubmitToast, navigates to /admin/classes only on success, and clears isSubmitting |
| ClassRegistrationForm.Price | components/classes/class-registration-form.tsx:29-34 | The total is one of the class's three prices |
| ClassRegistrationForm.OneOnOneFirst | components/classes/class-registration-form.tsx:30-31 | A truthy one-on-one price wins, whatever the payment method |
| ClassRegistrationForm.PriceFallsThrough | components/classes/class-registration-form.tsx:30-33 | A null or zero optional price falls through to the next tier; a card payment without one-on-one pays the base price |
| ClassRegistrationForm.CharterTierApplies | components/classes/class-registration-form.tsx:29-34 | Without an applicable one-on-one price, a charter payment pays the charter price when it is truthy and the base price otherwise |
| ClassRegistrationForm.CharterNoteIsCharterTotal | components/classes/classes-grid.tsx:119 | The charter note on a class card is the group total the form charges a charter school; a card without a note, or with the stray "0", means the base price |
| ClassRegistrationForm.DiscountMeansLowerTotal | components/classes/class-registration-form.tsx:175 | The discount notice shows iff the method is charter, the charter price is truthy and the group total is below the base price |
| ClassRegistrationForm.SubmitLabel | components/classes/class-registration-form.tsx:185 | "Processing..." iff submitting |
| ClassRegistrationForm.SubmitOutcome | components/classes/class-registration-form.tsx:50-63 | The form navigates iff the action succeeded; no toast iff a checkout URL is followed; a failure shows its error |
| ClassRegistrationForm.RegistrationFormState.constructor | components/classes/class-registration-form.tsx:24-27 | Starts with card payment, no student, group session |
| ClassRegistrationForm.RegistrationFormState.ChooseSessionType | components/classes/class-registration-form.tsx:94 | isOneOnOne iff the value is "one-on-one" |
| ClassRegistrationForm.RegistrationFormState.ChoosePaymentMethod | components/classes/class-registration-form.tsx:117-119 | The chosen radio value becomes the payment method; nothing else changes |
| ClassRegistrationForm.RegistrationFormState.ChooseStudent | components/classes/class-registration-form.tsx:74 | The chosen student is selected, and submit is then disabled iff a submit runs or the id is empty; nothing else changes |
| ClassRegistrationForm.RegistrationFormState.Request | components/classes/class-registration-form.tsx:40-45 | The amount sent is Price of the current choices; the school fields are sent iff the method is charter |
| ClassRegistrationForm.RegistrationFormState.HandleSubmit | components/classes/class-registration-form.tsx:36-67 | The request carries exactly the displayed total and the school fields iff charter; the database, the Stripe request and the result are those of registerForClass for that request; the outcome is SubmitOutcome of the result; classes are never written; isSubmitting is false afterwards |
| ClassesGrid.SpotsRemaining | components/classes/classes-grid.tsx:40 | remaining + spots_taken = max_spots |
| ClassesGrid.FullMatchesCapacityGuard | components/classes/classes-grid.tsx:41-42 | Full iff spots_taken >= max_spots, the same test as registerForClass; low iff 1 to 3 remain; never both |
| ClassesGrid.AvailabilityLine | components/classes/classes-grid.tsx:105-111 | Exactly one of full, "only N left" and "N available" is shown, by the remaining count, and N > 0 |
| ClassesGrid.Button | components/classes/classes-grid.tsx:124-125 | Disabled iff full, labelled "Join Waitlist" then, "Enroll Now" otherwise |
| ClassesGrid.CharterNote | components/classes/classes-grid.tsx:119 | The "($p charter)" note shows iff the charter price is present, nonzero and different from the price; a charter price of 0 prints a stray "0"; otherwise nothing |
| ClassesGrid.GradesText | components/classes/classes-grid.tsx:65 | Null or empty grades show "All grades"; otherwise the grades joined by ", " |
| ClassesGrid.Render | components/classes/classes-grid.tsx:13-35 | The empty state iff there are no classes, else one card per class in order |
| Students.ReadStudentData | app/actions/students.ts:16-22 | Blank date of birth and notes become null; name and grade are read as sent |
| Students.WithData | app/actions/students.ts:45-50 | The written row keeps its parent and first name and takes the form's fields |
| Students.ScopedUpdate | app/actions/students.ts:52 | Only a row matching both the id and the caller as parent changes |
| Students.ScopedDelete | app/actions/students.ts:73 | Only a row matching both the id and the caller as parent is removed |
| Students.OtherParentsUntouched | app/actions/students.ts:52-73 | Another parent's students survive updates and deletes unchanged; a repeated delete is the same delete |
| Students.AddStudent | app/actions/students.ts:5-32 | "Not authenticated" without a user; "Failed to add student" without a write on error; otherwise one new row whose parent is the caller |
| Students.UpdateStudent | app/actions/students.ts:34-60 | "Not authenticated" without a user; a database error, or a missing name or grade on a row the caller owns, gives "Failed to update student" with no write; otherwise ScopedUpdate, which writes nothing when the caller owns no such row |
| Students.DeleteStudent | app/actions/students.ts:62-81 | The same guards, then ScopedDelete |
| AdminAuth.ByteHex | app/actions/admin-auth.ts:13 | Each byte becomes exactly two lowercase hex digits |
| AdminAuth.ToHex | app/actions/admin-auth.ts:13 | The hex text is twice the byte count long, all lowercase hex |
| AdminAuth.HexRoundTrip | app/actions/admin-auth.ts:13 | Decoding the hex text gives the bytes back |
| AdminAuth.HexCanonical | app/actions/admin-auth.ts:13 | Any text that decodes is the encoding of what it decodes to |
| AdminAuth.ToHexInjective | app/actions/admin-auth.ts:13 | Different byte strings have different hex texts |
| AdminAuth.HashPassword | app/actions/admin-auth.ts:8-14 | The stored hash is the hex of the digest of the password and salt |
| AdminAuth.VerifyMeansSameDigest | app/actions/admin-auth.ts:16-19 | A password verifies iff its salted digest is the stored one |
| AdminAuth.GenerateSessionToken | app/actions/admin-auth.ts:22-28 | The token is the hex of the 32 random bytes: 64 lowercase hex characters |
| AdminAuth.WindowsAgree | app/actions/admin-auth.ts:81 | The cookie's 86400 s lifetime equals the 86 400 000 ms expiry window |
| AdminAuth.CookieStore.Set | app/actions/admin-auth.ts:77 | Setting a cookie replaces that name only |
| AdminAuth.CookieStore.Delete | app/actions/admin-auth.ts:111 | Deleting a cookie removes that name only |
| AdminAuth.LoginMatches | app/actions/admin-auth.ts:40-45 | The lookup selects active users whose email equals the lowercased email |
| AdminAuth.LoginDecision | app/actions/admin-auth.ts:34-56 | A missing field gives "Email and password are required"; success iff exactly one active match whose password verifies; every other case gives "Invalid email or password" |
| AdminAuth.AdminLogin | app/actions/admin-auth.ts:30-86 | On failure nothing changes; on success last_login is now and the session cookie holds the user and a fresh token |
| AdminAuth.GetAdminSession | app/actions/admin-auth.ts:94-119 | A missing or unparsable cookie gives null; an expired one is deleted and gives null; otherwise the session is returned |
| AdminAuth.LoginSessionLifetime | app/actions/admin-auth.ts:106-109 | A session is valid iff now − createdAt ≤ 86 400 000 ms |
| AdminAuth.NewAdminUser | app/actions/admin-auth.ts:121-141 | A created admin has the lowercased email, the given name, the given role or "admin" when none is passed, is_active equal to the column default (the insert does not write it), and a password hash that verifies |
| AdminAuth.CreateAdminUser | app/actions/admin-auth.ts:121-148 | A database error is returned with its message, no row and no write; otherwise one new admin_users row, NewAdminUser, which is also returned as `data` |
| AdminAuth.LowerIdempotent | app/actions/admin-auth.ts:43 | Lowercasing twice is lowercasing once |
| AdminAuth.CreatedAdminCanLogIn | app/actions/admin-auth.ts:40-45 | When the is_active default is true, an admin created with an email logs in with that email in any letter case |
| AdminAuth.InactiveAdminCannotLogIn | app/actions/admin-auth.ts:44 | When the is_active default is false, the created admin never logs in, whatever is typed |
| Blog.SlugifyIsSlug | app/actions/blog.ts:33 | A derived slug has only [a-z0-9-], no leading or trailing "-" and no "--" |
| Blog.SlugifyFixesSlugs | components/admin/blog-form.tsx:38-41 | A text that is already a slug is its own slug |
| Blog.SlugifyIdempotent | components/admin/blog-form.tsx:38-41 | Slugifying twice is slugifying once |
| Blog.AlnumTitleIsItsSlug | components/admin/blog-form.tsx:38-41 | A lowercase alphanumeric title is its own slug |
| Blog.ChosenSlug | app/actions/blog.ts:33 | A non-empty slug is used verbatim; otherwise the title's slug |
| Blog.PostRow | app/actions/blog.ts:31-41 | publish_date is set iff published; the author name falls back to "Admin" |
| Blog.SaveBlogPost | app/actions/blog.ts:6-62 | Staff only; a missing slug and title throws; a database error is reported with its message (else the fallback) and no write; a missing title is refused with the NOT NULL message only when the write reaches a row; otherwise a present id updates that post (an id naming no post writes nothing) and no id inserts one new post |
| Blog.DeleteBlogPost | app/actions/blog.ts:64-92 | Staff only; removes that post and nothing else |
| BlogForm.SubmitRoundTrip | components/admin/blog-form.tsx:49-53 | saveBlogPost reads back the title, the slug, the published flag, and an id iff editing |
| BlogForm.DerivedSlugStored | components/admin/blog-form.tsx:34-44 | For a new post the stored slug is the title's slug, whether the slug field holds it or is empty |
| BlogForm.SubmitToast | components/admin/blog-form.tsx:56-66 | A success toast iff the action succeeded; otherwise the action's error when non-empty |
| BlogForm.BlogFormState.constructor | components/admin/blog-form.tsx:28-31 | Starts from the edited post, or unpublished with an empty title and slug |
| BlogForm.BlogFormState.HandleTitleChange | components/admin/blog-form.tsx:34-44 | The slug follows the title only for a new post, and is then a valid slug; an existing post keeps its slug |
| BlogForm.BlogFormState.HandleSubmit | components/admin/blog-form.tsx:46-69 | Sends the entries; a failed gate or database error writes nothing; otherwise the post row built from the title, the chosen slug and the flag replaces the edited post, or is inserted under a new id; shows SubmitToast, navigates to /admin/blog iff saved, and clears isSubmitting |
| AmountSelection.Presets | components/donate/donation-form.tsx:19-24 | Every preset amount is at least $1 |
| AmountSelection.TotalOf | components/donate/donation-form.tsx:77-79 | The custom value if custom (0 when unparsable), else the preset, else 0 |
| AmountSelection.AmountState.constructor | components/donate/donation-form.tsx:46-48 | Starts with nothing chosen and a total of 0 |
| AmountSelection.AmountState.SelectPreset | components/donate/donation-form.tsx:81-85 | A preset clears custom mode; the total is the preset |
| AmountSelection.AmountState.ClickCustom | components/donate/donation-form.tsx:87-90 | Custom mode clears the preset; the total is the parsed custom text |
| AmountSelection.AmountState.SetCustomAmount | components/donate/donation-form.tsx:218 | Typing keeps preset and custom selection exclusive |
| AmountSelection.PresetTotals | components/sponsor/sponsorship-form.tsx:11-16 | Choosing any preset gives a total of at least $1 |
| DonationForm.CardDigits | components/donate/donation-form.tsx:97-100 | Fewer than 4 digits give none; otherwise the first min(16, n) digits in order |
| DonationForm.FormatCardNumber | components/donate/donation-form.tsx:96-109 | The loop's result equals CardNumberText of the input |
| DonationForm.GroupedShape | components/donate/donation-form.tsx:101-105 | Groups of 4 joined by single spaces: n + (n−1)/4 characters, only digits and spaces, the digits recovered in order |
| DonationForm.CardNumberShape | components/donate/donation-form.tsx:96-108 | Fewer than 4 digits return the input unchanged; otherwise at most 19 characters of grouped digits |
| DonationForm.CardNumberIdempotent | components/donate/donation-form.tsx:96-109 | Formatting twice is formatting once |
| DonationForm.ExpiryShape | components/donate/donation-form.tsx:111-117 | At most 5 characters; the first up to 4 digits in order; a "/" after two digits iff at least two digits were typed |
| DonationForm.ExpiryIdempotent | components/donate/donation-form.tsx:111-117 | Formatting twice is formatting once |
| DonationForm.DigitsCapped | components/donate/donation-form.tsx:404 | The first n digits of the input, digits only |
| DonationForm.SubmitOutcome | components/donate/donation-form.tsx:122-137 | Checks in order: amount ≤ 0, then a dedication with a blank name, then remember-card (go to /register); donated iff none hit |
| DonationForm.EnabledPassesAmountCheck | components/donate/donation-form.tsx:527 | An enabled submit never fails the amount check |
| DonationForm.DonationFormState.constructor | components/donate/donation-form.tsx:59-71 | All billing fields empty, nothing dedicated, total 0 |
| DonationForm.DonationFormState.HandleInputChange | components/donate/donation-form.tsx:92-94 | Only that field changes |
| DonationForm.DonationFormState.OnCardNumberInput | components/donate/donation-form.tsx:379 | The card field holds the formatted number; no other field and no other state changes |
| DonationForm.DonationFormState.OnExpiryInput | components/donate/donation-form.tsx:393 | The expiry field holds the formatted date; no other field and no other state changes |
| DonationForm.DonationFormState.OnCvvInput | components/donate/donation-form.tsx:404 | The CVV field holds at most 4 digits; no other field and no other state changes |
| DonationForm.DonationFormState.OnZipInput | components/donate/donation-form.tsx:466 | The ZIP field holds at most 5 digits; no other field and no other state changes |
| DonationForm.DonationFormState.HandleSubmit | components/donate/donation-form.tsx:119-153 | The outcome is SubmitOutcome of the current total and choices; only a donation clears isSubmitting |
| SponsorCheckout.SponsorMetadata | app/api/checkout/sponsor/route.ts:25-38 | type "sponsorship" and the three sponsor fields always (defaulting to ""); student_name and organization_name present iff truthy; no other keys |
| SponsorCheckout.EmptyDefaultReadsAsAbsent | app/api/checkout/sponsor/route.ts:27-29 | The "" the route stores for a missing sponsor field makes the webhook's `metadata.x \|\| fallback` fall back exactly as if the field were absent |
| SponsorCheckout.Description | app/api/checkout/sponsor/route.ts:49-51 | The description names the student iff a student name is given |
| SponsorCheckout.Post | app/api/checkout/sponsor/route.ts:4-77 | A missing or non-positive amount gives 400 and no session; otherwise one session in cents with the same metadata on the session and the payment intent; a failure gives 500 |
| SponsorCheckout.SessionsReachSponsorship | app/api/checkout/sponsor/route.ts:61-65 | A sponsor session reaches the sponsorship handler, and its row records the sponsor's names |
| SponsorCheckout.RecordedAmountWithinHalfCent | app/api/checkout/sponsor/route.ts:53 | The amount the webhook records is within half a cent of the amount sent |
| SponsorshipForm.SubmitCheck | components/sponsor/sponsorship-form.tsx:60-78 | Checks in order: ≤ 0, < $1, dedication with a blank name, organization with a blank name; only the first failure is reported |
| SponsorshipForm.Payload | components/sponsor/sponsorship-form.tsx:89-96 | studentName is sent iff dedicated, organizationName iff from an organization |
| SponsorshipForm.ReplyOutcome | components/sponsor/sponsorship-form.tsx:100-115 | A url redirects; an error shows it; a failed call shows the fixed message |
| SponsorshipForm.CheckedSubmitIsRecorded | components/sponsor/sponsorship-form.tsx:60-96 | A submission that passes the form's checks passes the route's amount check, and its sponsorship row names the student or organization iff that box was ticked |
| SponsorshipForm.SponsorshipFormState.constructor | components/sponsor/sponsorship-form.tsx:19-39 | Starts with nothing chosen, nothing dedicated, total 0 |
| SponsorshipForm.SponsorshipFormState.HandleSubmit | components/sponsor/sponsorship-form.tsx:57-118 | A failed check is shown and nothing is sent; otherwise the payload is posted, the route receives exactly that body and requests the session in cents with the sponsor metadata, the reply is the route's (none on a network failure), the outcome is ReplyOutcome of the reply, and isSubmitting is false afterwards |
| ClassesFilter.RemoveName | components/classes/classes-filter.tsx:34 | `delete` leaves no entry with the name |
| ClassesFilter.RemoveNameLookup | components/classes/classes-filter.tsx:34 | After `delete`, only that name reads as missing |
| ClassesFilter.RemoveNameIdempotent | components/classes/classes-filter.tsx:34 | Deleting twice is deleting once |
| ClassesFilter.SetNameSpec | components/classes/classes-filter.tsx:36 | After `set`, the name reads the value, occurs once, and the other entries are as before |
| ClassesFilter.SetNameInPlace | components/classes/classes-filter.tsx:36 | `set` replaces the first entry in place and keeps the entries before it |
| ClassesFilter.SearchParams.Delete | components/classes/classes-filter.tsx:34 | The list becomes RemoveName of the old list |
| ClassesFilter.SearchParams.Set | components/classes/classes-filter.tsx:36 | The list becomes SetName of the old list |
| ClassesFilter.UpdateFilter | components/classes/classes-filter.tsx:31-38 | "all" removes the key; another value sets it to exactly that value; every other parameter is preserved |
| ClassesFilter.ExactlyOneTypeActive | components/classes/classes-filter.tsx:47 | Exactly one type button is active when the type is unset or one of the four values |
| ClassesFilter.ClickedTypeBecomesActive | components/classes/classes-filter.tsx:31-47 | After a click, the clicked button is the only active one |
| ClassesFilter.ChosenGradeIsShown | components/classes/classes-filter.tsx:14-20 | Choosing a grade option shows that option in the select once the page reads the URL back; "all" is shown for a URL without a grade |
| ClassesFilter.GradeSelectAllMeansNoGrade | components/classes/classes-filter.tsx:61 | The select shows "all" iff the URL has no grade, an empty one, or the grade "all" |
| AdminNav.Hrefs | components/admin/admin-sidebar.tsx:23-33 | The hrefs of the items, in order |
| AdminNav.OtherHrefsDiverge | components/admin/admin-sidebar.tsx:23-33 | Distinct non-root hrefs differ right after "/admin/" |
| AdminNav.OnlyDashboardAtRoot | components/admin/admin-sidebar.tsx:50 | On "/admin" no item but the dashboard is active |
| AdminNav.AtMostOneActive | components/admin/admin-sidebar.tsx:50 | At most one item is active for any pathname |
| AdminNav.HeaderMatchesSidebar | components/admin/admin-header.tsx:83 | The header's items and active rule are the sidebar's |
| AdminNav.RawPrefixMatches | components/admin/admin-sidebar.tsx:50 | The raw prefix test activates Classes on "/admin/classesX"; the dashboard matches only exactly |
| AdminNav.AvatarLetter | components/admin/admin-sidebar.tsx:72 | The first letter of the full name, else "A" |
| AdminNav.DisplayName | components/admin/admin-header.tsx:126 | The full name when truthy, else the fallback |
| AdminNav.NameFallbacks | components/admin/admin-sidebar.tsx:72-75 | The shown name is never empty, and the avatar is its first letter |
| AdminNav.HeaderMenu.OnOpenChange | components/admin/admin-header.tsx:70 | The menu is open iff the sheet says so |
| AdminNav.HeaderMenu.OnLinkClick | components/admin/admin-header.tsx:91 | Following a nav link closes the mobile menu |
| VolunteerForm.HandOffRoundTrip | components/volunteer-form.tsx:25 | The server's JSON.parse of the appended availability gives the selected list |
| VolunteerForm.ResultToast | components/volunteer-form.tsx:29-38 | A success toast iff success; a failure without text shows the fixed fallback |
| VolunteerForm.VolunteerFormState.constructor | components/volunteer-form.tsx:20-21 | Starts with nothing selected |
| VolunteerForm.VolunteerFormState.OnCheckedChange | components/volunteer-form.tsx:75-80 | The selection becomes CheckedChange of the old one |
| VolunteerForm.VolunteerFormState.HandleSubmit | components/volunteer-form.tsx:23-42 | Appends the JSON of the selection; a success clears the selection; isSubmitting is false afterwards |
| Intake.IntakeState.constructor | app/intake/page.tsx:184-187 | Every multi-select field starts empty |
| Intake.IntakeState.Toggle | app/intake/page.tsx:115-116 | Membership of the option flips, the others keep their order, and other fields are unchanged |
| Intake.IntakeState.OnSubmit | app/intake/page.tsx:205-223 | Success sets submitted; a failed reply and a network failure each set their fixed message; submitting is false afterwards |
| Lessons.AnchorChar | app/lessons/page.tsx:214 | The result is always in [a-z0-9-]: a lowercased letter or digit is kept, and every other character becomes "-" |
| Lessons.AnchorId | app/lessons/page.tsx:214 | The id has the heading's length and is mapped character by character |
| Lessons.AnchorIdShape | app/lessons/page.tsx:214 | The id contains only [a-z0-9-], and the transform is idempotent |
| Lessons.LowerAlnumHeadingIsItsId | app/lessons/page.tsx:214 | A lowercase alphanumeric heading is its own id |
| Lessons.GradeIdsDistinct | app/lessons/page.tsx:13-117 | The five grade headings give the ids "tk-k", "grades-1-3", …, "grades-9-12", pairwise distinct |
| Lessons.LessonsByGrade | app/lessons/page.tsx:11-142 | The page lists five bands, in order, under the five grade headings |
| Lessons.LessonCard | app/lessons/page.tsx:251-259 | An "available" lesson links to its page; any other status shows a "Coming Soon" button |

## Left out

- RegistrationActions.RegistrationActionsState.HandleApprove and HandleReject: a call that throws is not modelled; the component has no finally block, so isLoading would stay true in that case.
- Supabase, Stripe and the email service are not called. Each answer they give is a parameter of the method that receives it, as described above.
- The emails are modelled by recipient and subject only. The HTML templates are not modelled.
- SHA-256 and `crypto.getRandomValues` are parameters (`digest`, `random`). Only the hex encoding and the comparison of digests are modelled.
- Concurrency between requests is not modelled: each request is one atomic step. In particular the race between the capacity check and the insert of registerForClass is not captured.
- Money is exact `real` dollars, not JavaScript floating point. `Math.round` is modelled on exact values. `toFixed`, floating-point rounding error and NaN are not.
- Registrations.Cents: holds for exact values only; the floating-point product `amount * 100` may round differently.
- Numbers.ParseFloat: exponents and "Infinity" are not parsed, and the contract states only when a value is produced, not its digits after the point.
- Text.Lower: lowercases ASCII letters only. JavaScript's `toLowerCase` also maps other letters, such as "İ" and the Kelvin sign.
- Lessons.AnchorId: inherits the ASCII-only lowercasing. A heading with non-ASCII capital letters can get a different id than in the browser; the five headings used are ASCII apart from the en dash, which becomes "-" either way.
- ClassesGrid.GradesText: when the first grade of a non-empty list is the empty string, the contract does not say which text is shown.
- The dates and times stored on rows are `nat` timestamps. Date formatting (`toISOString`, `toLocaleDateString`) is not modelled.
- URLSearchParams `toString` and its percent-encoding are not modelled; the query is its list of name/value pairs.
- Sign-out (`adminLogout`, Supabase sign-out) is not modelled beyond CookieStore.Delete.
- The Zod validation and the RadioGroup of the intake page are a library's behaviour and are not modelled. The intake API route is not modelled either; its reply is a parameter.
- The volunteer server action's insert is not modelled; its result is a parameter. Only its JSON.parse of the availability list is modelled.
- The donation form's payment is simulated in the page with a timer and never fails. Its catch branch is therefore not modelled, and neither is the timer.
- JSON is modelled only for arrays of strings, the one shape the forms send.
- The sponsor route's body is assumed to be a JSON object whose `amount` is a number or missing; other JSON values are not modelled.
- CheckoutRoute.Post: a body that parses is assumed to carry classId, studentId, isOneOnOne and price with their types; missing or mistyped fields in a parsed body are not modelled.
- A database error is one boolean per write for the writes whose error the code reads. Refusals that depend on column constraints (NOT NULL, enum columns) are written out as the rows the model refuses.
- Registrations.RegisterForClass: the update that stores the Stripe session id (app/actions/registrations.ts:106) is assumed to succeed, because the code does not read its error.
- NewAdminUser: the insert writes neither is_active nor last_login. is_active is a parameter (`activeDefault`) because its column default is not part of this model; last_login is taken to be null.
- AdminAuth.AdminLogin: the last_login update (app/actions/admin-auth.ts:59-62) is assumed to succeed, because the code does not read its error.
- CheckoutSuccess.Render: the paid/confirmed update (app/checkout/success/page.tsx:21-29) is assumed to succeed, because the code does not read its error.
- The string the registration form sends for the amount (`String(price)`) is assumed to parse back to the same number. This is proved only for whole-dollar amounts (Numbers.IntTextFloat).

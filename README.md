# CivicConnect front end: a Dafny model of its interactive logic

CivicConnect ("Swavlamban Bharat") is a citizen-facing web front end for reporting
civic issues. All of its behaviour lives in React components: a four-step issue-report
wizard, a keyword-driven chat assistant, an admin dashboard with a status-tab filter
over a fixed table, a page router with a login gate, and three small forms
(complaint tracking, contact, sign-in) that validate their fields, show a busy state
and complete when a timer fires. This project models those pieces in Dafny and proves
what they guarantee.

Each component becomes one module, and component state becomes a class whose methods
change the fields the component's handlers change:

- `Wizard` (`ReportForm`): the step / form-data state machine, the footer rule and
  the review-screen fallbacks.
- `Chat` (`AIChat`): the reply selector `AIResponse`, and a class holding the message
  list, the input box and the queue of texts whose reply is still on its way.
- `Board` (`Dashboard`): the fixed complaint table, the order-preserving tab filter,
  the badge colours, and the `activeTab` field.
- `Shell` (`App`): `RenderPage`, and a class with the page, login, theme and
  language fields and their handlers.
- `Tracker` (`TrackIssue`), `Support` (`Contact`), `SignIn` (`Login`): each form as a
  class. Its submit handler validates and enters the busy state, and an explicit
  `Complete` step stands for the `setTimeout` callback.
- `Text`: the JavaScript string operations the components use. These are ASCII
  `toLowerCase` / `toUpperCase`, `includes` and `trim`. `Toasts` holds the
  notification a handler raises.
- `Html`: what the browser does with an `<input type="email">` before a form's
  submit handler runs, as the HTML Living Standard defines the E-mail state
  (section 4.10.5.1.5). The value is sanitised: newlines are removed and
  surrounding ASCII whitespace is stripped. A form whose email field holds a
  non-empty value that is not a valid e-mail address fails constraint validation,
  so the browser shows its own message and the submit event never fires. Neither
  form sets `noValidate`, and neither email field is `required`, so an empty
  email still reaches the handler.

Modelling decisions:

- A timer callback reads the values its closure captured when the timer was set.
  The model keeps those values in a `pending` field. The tracker keeps the captured
  complaint id, so `Complete` shows the upper-cased id that was submitted, not the one
  typed since. The chat keeps a first-in, first-out queue of sent texts, because
  every reply has the same delay.
- A submit button that is disabled while busy (`TrackIssue.tsx:56`, `Contact.tsx:127`,
  `Login.tsx:84`) becomes a `requires` on the submit method. A disabled submit button
  also blocks submitting with the Enter key. Likewise, a control is callable only
  where the component renders it. The wizard's footer controls are callable at
  the steps `FooterAt` offers them, its category buttons only at step 1, and its
  location and description fields only at step 2 (`ReportForm.tsx:68`, `:98`).
  The chat's input, send form and close button are callable only while the panel
  is open (`AIChat.tsx:65`).
- `Login`'s `onLogin` prop is always the shell's `handleLogin` (`App.tsx:54`, `:56`).
  So `SignIn.Login.Complete` takes the `App` and calls `HandleLogin` exactly once.
- Clock values (`Date.now()`, `toLocaleTimeString`) are method parameters.
- Each class models one mounted instance of its component. The shell renders the
  current page under `key={currentPage}` (`App.tsx:94`), so navigating away and back
  mounts a fresh instance: the wizard, tracker, contact form, sign-in form and
  dashboard then start again from their constructor state. For example,
  `ReportAnother` keeps the fields only while the wizard stays mounted.

What the code does, where a reader might expect more:

- There is no severity classifier, no local-storage report store and no random id.
  Every submission shows the fixed id `SB-98234`.
- The wizard's category is one of four fixed ids, not free text.
- Step 2 does not require a description. `Wizard.SubmitWithoutDetails` reaches the
  success screen with an empty location and an empty description.
- "Report Another Issue" returns to step 1 without clearing the fields.

## Model

| member | source | states |
|---|---|---|
| `Text.ToLower` | src/app/components/AIChat.tsx:55 | lower-casing keeps the length and maps each character by ASCII `toLowerCase` |
| `Text.ToUpper` | src/app/components/TrackIssue.tsx:25 | upper-casing keeps the length and maps each character by ASCII `toUpperCase` |
| `Text.ToLowerIdempotent` | src/app/components/AIChat.tsx:55 | lowering an already lowered text changes nothing |
| `Text.ToLowerAppend` | src/app/components/AIChat.tsx:55 | lowering distributes over concatenation |
| `Text.ContainsAt` | src/app/components/AIChat.tsx:56-59 | `includes(k)`, modelled by the predicate `Text.Contains`, holds if and only if `k` occurs at some offset of the text (`Text.OccursAt`) |
| `Text.ContainsInside` | src/app/components/AIChat.tsx:56-59 | a keyword placed anywhere inside any text is found (substring, not word, match) |
| `Text.TrimStart` | src/app/components/AIChat.tsx:30 | the result is a suffix that starts with no whitespace, and only whitespace was dropped |
| `Text.TrimEnd` | src/app/components/AIChat.tsx:30 | the result is a prefix that ends with no whitespace, and only whitespace was dropped |
| `Text.Trim` | src/app/components/AIChat.tsx:30 | `trim()` is empty exactly when every character is ECMAScript whitespace or a line terminator |
| `Chat.AIResponse` | src/app/components/AIChat.tsx:54-60 | the reply is always one of the four fixed strings |
| `Chat.AIResponseCases` | src/app/components/AIChat.tsx:54-60 | for each of the four replies, the keyword condition under which it is chosen, as an if-and-only-if that follows the priority order report > track > credits > default |
| `Chat.AIResponseIgnoresCase` | src/app/components/AIChat.tsx:55 | a text and its lower-cased form get the same reply |
| `Chat.KeywordSeen` | src/app/components/AIChat.tsx:55-59 | a keyword in any ASCII case, anywhere in the text, is found in the lowered text |
| `Chat.ReportKeywordWins` | src/app/components/AIChat.tsx:56 | "report" in any case anywhere gives the report reply, whatever else the text holds |
| `Chat.ComplaintWordWins` | src/app/components/AIChat.tsx:56 | the Hindi word for complaint anywhere gives the report reply |
| `Chat.TrackKeywordAnywhere` | src/app/components/AIChat.tsx:57 | "track" anywhere, even inside a longer word, gives the tracking reply when no report keyword is present |
| `Chat.CoinsKeywordAnywhere` | src/app/components/AIChat.tsx:58 | "coins" anywhere gives the credits reply when neither a report nor a tracking keyword is present |
| `Chat.SendKeepsInvariant` | src/app/components/AIChat.tsx:30-40 | appending a non-blank user message and queueing its reply keeps the chat invariant (greeting first, user texts non-blank, bot texts canned, one reply per user message) |
| `Chat.ReplyKeepsInvariant` | src/app/components/AIChat.tsx:43-51 | appending a canned reply to the oldest queued text keeps the chat invariant |
| `Chat.AIChat.constructor` | src/app/components/AIChat.tsx:13-17 | the chat starts closed, with exactly the one bot greeting and an empty input |
| `Chat.AIChat.Toggle` | src/app/components/AIChat.tsx:139 | the floating button flips `isOpen` and changes nothing else |
| `Chat.AIChat.Close` | src/app/components/AIChat.tsx:87 | only while the panel is open (the button lives in it): `isOpen` becomes false and nothing else changes |
| `Chat.AIChat.SetInput` | src/app/components/AIChat.tsx:123 | only while the panel is open: typing sets `input` only |
| `Chat.AIChat.Send` | src/app/components/AIChat.tsx:28-41 | only while the panel is open; a blank input changes nothing; otherwise exactly one user message with the untrimmed input is appended after the earlier messages, the input is cleared and the text is queued for a reply |
| `Chat.AIChat.DeliverReply` | src/app/components/AIChat.tsx:43-51 | the timer appends one bot message whose text is `AIResponse` of the oldest sent text, and dequeues that text |
| `Board.FilterByTab` | src/app/components/Dashboard.tsx:158-159 | every row the filter yields is in the table and passes the tab |
| `Board.FilterAllKeepsEveryRow` | src/app/components/Dashboard.tsx:159 | tab "All" yields the whole table in its original order |
| `Board.FilterIsSubsequence` | src/app/components/Dashboard.tsx:158-159 | the filtered rows are a subsequence of the table (original order kept) |
| `Board.FilterKeepsEveryMatch` | src/app/components/Dashboard.tsx:159 | a row occurs in the result as often as in the table when the tab shows it (the filter callback, predicate `Board.Shown`), and never otherwise: no matching row is omitted |
| `Board.StatusCountsAddUp` | src/app/components/Dashboard.tsx:158-159 | for a table whose rows all have one of the three statuses, any row value occurs as often across the Pending, In Progress and Completed results as in the table |
| `Board.StatusTabsPartition` | src/app/components/Dashboard.tsx:158-159 | when every row has one of the three statuses, the Pending, In Progress and Completed results together hold every row exactly once |
| `Board.MockComplaintsFacts` | src/app/components/Dashboard.tsx:26-32 | every row's status is one of the three status tabs, row ids are pairwise distinct, and each status tab selects the expected rows |
| `Board.StatusBadge` | src/app/components/Dashboard.tsx:166-170 | Pending is amber, In Progress is blue, any other status is green |
| `Board.PriorityDot` | src/app/components/Dashboard.tsx:176-179 | High is red, Medium is amber, any other priority is blue |
| `Board.StatusBadgeDistinguishesTabs` | src/app/components/Dashboard.tsx:166-170 | the three statuses get three different badge colours |
| `Board.Dashboard.constructor` | src/app/components/Dashboard.tsx:35 | the dashboard opens on tab "All" |
| `Board.Dashboard.SelectTab` | src/app/components/Dashboard.tsx:121-124 | a tab click sets `activeTab` to that label, and the visible rows become that tab's filter |
| `Board.Dashboard.VisibleRows` | src/app/components/Dashboard.tsx:158-159 | the table shows only rows of the fixed table that pass the active tab, and the whole table under "All" |
| `Shell.RenderPage` | src/app/App.tsx:47-74 | Dashboard is shown exactly for "dashboard" when signed in; Login exactly for "login" or a signed-out "dashboard"; Hero exactly for "home" and every unnamed id |
| `Shell.RenderNamedPages` | src/app/App.tsx:48-70 | signed in, the eleven named ids map to eleven different components; signed out only "dashboard" changes, to Login |
| `Shell.NavbarReportItemsShowHero` | src/app/App.tsx:71-72 | the navigation bar's "report-letter" and "report-voice" ids fall back to Hero |
| `Shell.App.constructor` | src/app/App.tsx:21-24 | the shell starts light-themed, in English, on "home", signed out, showing Hero |
| `Shell.App.Render` | src/app/App.tsx:100 | the main area shows Dashboard exactly on a signed-in "dashboard", and Login exactly on "login" or a signed-out "dashboard" |
| `Shell.App.ToggleDarkMode` | src/app/App.tsx:35 | `darkMode` is negated and nothing else changes |
| `Shell.App.HandleLogin` | src/app/App.tsx:37-40 | signed in, on "dashboard", theme and language untouched, and the next render is Dashboard |
| `Shell.App.HandleLogout` | src/app/App.tsx:42-45 | signed out, on "home", theme and language untouched, and the next render is Hero (no control in the source calls it) |
| `Shell.App.Navigate` | src/app/App.tsx:147-160 | navigating sets `currentPage` only; login, theme and language are untouched |
| `Shell.App.SetLanguage` | src/app/App.tsx:84 | the language switch sets `language` only |
| `Shell.ToggleTwice` | src/app/App.tsx:35 | toggling the theme twice restores every field of the shell |
| `Shell.AdminPortalSignedOut` | src/app/App.tsx:149 | signed out, the footer's Admin Portal link shows the login form |
| `Wizard.FooterAt` | src/app/components/ReportForm.tsx:212-231 | no footer at step 4; Back offered exactly from step 2 on; the primary button submits exactly at step 3 and is Next otherwise |
| `Wizard.ReviewLine` | src/app/components/ReportForm.tsx:166-170 | a review field shows its fallback text when the value is empty, and the value itself otherwise |
| `Wizard.ReviewScreen` | src/app/components/ReportForm.tsx:166-170 | the review screen shows "Not specified" exactly when the location is empty (or that very text), and "No description provided." exactly when the description is empty (or that very text) |
| `Wizard.ReportForm.constructor` | src/app/components/ReportForm.tsx:25-31 | the wizard starts at step 1 with every field empty and no voice note |
| `Wizard.ReportForm.SelectCategory` | src/app/components/ReportForm.tsx:68-85 | only at step 1, where the buttons are shown: choosing a category changes only `category`; the invariant (step in 1..4, category chosen from step 2 on) is kept |
| `Wizard.ReportForm.SetLocation` | src/app/components/ReportForm.tsx:116 | only at step 2, where the field is shown: editing the location changes only `location` |
| `Wizard.ReportForm.SetDescription` | src/app/components/ReportForm.tsx:132 | only at step 2, where the field is shown: editing the description changes only `description` |
| `Wizard.ReportForm.Next` | src/app/components/ReportForm.tsx:33-39 | at step 1 with no category nothing changes and the error toast is raised; otherwise the step grows by exactly one, with no check at step 2; form data never changes and step 4 is never reached |
| `Wizard.ReportForm.Back` | src/app/components/ReportForm.tsx:41 | the step drops by exactly one and the form data is unchanged |
| `Wizard.ReportForm.Submit` | src/app/components/ReportForm.tsx:43-46 | only from step 3: step 4 is entered, the form data is unchanged and the toast carries id SB-98234 |
| `Wizard.ReportForm.ReportAnother` | src/app/components/ReportForm.tsx:203 | back to step 1 with the form data exactly as it was |
| `Wizard.SubmitWithoutDetails` | src/app/components/ReportForm.tsx:33-46 | selecting "roads" and then Next, Next, Submit reaches step 4 with the location and description still empty |
| `Tracker.LookupFor` | src/app/components/TrackIssue.tsx:24-30 | the result's id is the upper-cased submitted id, of the same length, and its status is "In Progress" |
| `Tracker.SelectPanel` | src/app/components/TrackIssue.tsx:64-147 | the result panel exactly when a result exists; else the hint exactly when not searching and the id is non-empty; else the empty prompt |
| `Tracker.ConnectorAfter` | src/app/components/TrackIssue.tsx:99-100 | no connector after the last entry; a green one exactly when this entry and the next are completed |
| `Tracker.MockTimelineConnectors` | src/app/components/TrackIssue.tsx:5-10 | on the fixed timeline the connectors are green, green, plain, and there is none after the last entry |
| `Tracker.TrackIssue.constructor` | src/app/components/TrackIssue.tsx:13-15 | empty id, not searching, no result |
| `Tracker.TrackIssue.CurrentPanel` | src/app/components/TrackIssue.tsx:63-148 | the result panel exactly when a result exists; the hint exactly when there is none, no search runs and an id is typed |
| `Tracker.TrackIssue.SetComplaintId` | src/app/components/TrackIssue.tsx:50 | typing sets `complaintId` only |
| `Tracker.TrackIssue.Search` | src/app/components/TrackIssue.tsx:17-22 | only while the button is enabled (`disabled` attribute at `TrackIssue.tsx:56`, predicate `Tracker.TrackIssue.SubmitEnabled`); an empty id changes nothing; otherwise searching starts and the timer captures the id |
| `Tracker.TrackIssue.Complete` | src/app/components/TrackIssue.tsx:23-32 | the result for the captured id is shown (upper-cased non-empty id, status "In Progress") and searching ends |
| `Support.SubmitToast` | src/app/components/Contact.tsx:12-15 | the error toast exactly when name, email or message is empty, that is, when the validator predicate `Support.AllFilled` fails |
| `Support.Contact.constructor` | src/app/components/Contact.tsx:7-8 | all fields empty, not loading |
| `Support.Contact.SetName` | src/app/components/Contact.tsx:99 | editing the name leaves email, message and loading unchanged |
| `Support.WhitespaceEmailIsMissing` | src/app/components/Contact.tsx:104-110 | an email typed as whitespace only passes the browser's check as an empty value and gets the missing-field toast |
| `Support.Contact.SetEmail` | src/app/components/Contact.tsx:104-110 | the email field holds the sanitised typed value; name, message and loading are unchanged |
| `Support.Contact.SetMessage` | src/app/components/Contact.tsx:120 | editing the message leaves name, email and loading unchanged |
| `Support.Contact.Submit` | src/app/components/Contact.tsx:10-16 | only while the button is enabled; fields unchanged; a non-empty malformed email is stopped by the browser (no toast, no loading); loading starts exactly when the email is a valid address and name and message are non-empty |
| `Support.Contact.Complete` | src/app/components/Contact.tsx:17-21 | loading ends, the thank-you toast is raised and all three fields are cleared |
| `SignIn.SubmitToast` | src/app/components/Login.tsx:17-20 | the error toast exactly when the email or the password is empty, that is, when the validator predicate `SignIn.Accepts` fails |
| `SignIn.Login.constructor` | src/app/components/Login.tsx:11-13 | both fields empty, not loading |
| `SignIn.Login.SetEmail` | src/app/components/Login.tsx:54-60 | the email field holds the sanitised typed value; the password and loading are unchanged |
| `SignIn.Login.SetPassword` | src/app/components/Login.tsx:76 | editing the password leaves the email and loading unchanged |
| `SignIn.Login.Submit` | src/app/components/Login.tsx:15-22 | only while the button is enabled; fields unchanged; a non-empty malformed email is stopped by the browser (no toast, no loading); loading starts exactly when the email is a valid address and the password is non-empty (no credential check) |
| `SignIn.Login.Complete` | src/app/components/Login.tsx:24-28 | loading ends, the shell's handleLogin runs once (signed in, on "dashboard", Dashboard rendered) and the welcome toast is raised |
| `SignIn.SignInFlow` | src/app/components/Login.tsx:15-28 | any typed text that sanitises to a valid address, with any non-empty password, submitted and completed, leaves the shell signed in and showing Dashboard |
| `SignIn.MalformedEmailStopped` | src/app/components/Login.tsx:50-60 | with the email "admin" the browser stops the submission: no toast, no loading, the shell stays signed out |
| `Html.StripNewlines` | src/app/components/Login.tsx:54-60 | no newline is left; a single character is dropped exactly when it is a newline |
| `Html.StripNewlinesAppend` | src/app/components/Login.tsx:54-60 | stripping distributes over concatenation, so the kept characters keep their order and their number |
| `Html.StripNewlinesChars` | src/app/components/Login.tsx:54-60 | the characters left are exactly the text's non-newline characters |
| `Html.StripNewlinesNoop` | src/app/components/Login.tsx:54-60 | text without newlines is unchanged |
| `Html.StripLeading` | src/app/components/Login.tsx:54-60 | the result is a suffix that starts with no ASCII whitespace, and only whitespace was dropped |
| `Html.StripTrailing` | src/app/components/Login.tsx:54-60 | the result is a prefix that ends with no ASCII whitespace, and only whitespace was dropped |
| `Html.EmailValue` | src/app/components/Login.tsx:54-60 | the sanitised value holds no newline and has no whitespace at either end |
| `Html.EmailValueTrimsOnlyEnds` | src/app/components/Login.tsx:54-60 | the sanitised value is a contiguous part of the newline-free text, and everything before and after it is whitespace |
| `Html.StripBothEndsMiddle` | src/app/components/Login.tsx:54-60 | stripping whitespace at both ends leaves a contiguous middle part with only whitespace around it |
| `Html.EmailValueEmpty` | src/app/components/Contact.tsx:104-110 | the sanitised value is empty exactly when the typed text is all ASCII whitespace |
| `Html.IndexOf` | src/app/components/Login.tsx:54-60 | the first position of a character, or the length when it is absent |
| `Html.IsDomain` | src/app/components/Login.tsx:50-60 | a valid domain is non-empty and starts and ends with a letter or digit |
| `Html.IsValidEmail` | src/app/components/Login.tsx:50-60 | a valid address has at least three characters, contains `@`, and ends with a letter or digit |
| `Html.TypeMismatch` | src/app/components/Contact.tsx:90-110 | the browser blocks submission for no empty value, and for every non-empty value without `@` |
| `Html.DomainCharacters` | src/app/components/Login.tsx:54-60 | a valid domain holds only letters, digits, hyphens and dots |
| `Html.NoWhitespaceIsSanitized` | src/app/components/Login.tsx:54-60 | text without whitespace is reported exactly as typed |
| `Html.ValidEmailHasNoWhitespace` | src/app/components/Login.tsx:50-60 | a valid address holds no whitespace |
| `Html.ValidEmailIsSanitized` | src/app/components/Login.tsx:54-60 | a valid address is reported exactly as typed |
| `Html.NoAtSignMismatch` | src/app/components/Login.tsx:50-60 | non-empty text without an `@` always fails the browser's check |
| `Html.AdminIsMismatch` | src/app/components/Login.tsx:50-60 | "admin" is reported as typed and fails the browser's check |
| `Html.ShortAddressIsValid` | src/app/components/Login.tsx:54-60 | "a@b.gov" passes the browser's check |

## Left out

- JSX layout, Tailwind classes, `motion` / `AnimatePresence` animations and icons.
  They are presentation only. The wizard's progress dots, the category buttons'
  colours and the tracker's timeline dot colours are not modelled.
- `setTimeout` delays. Each timer is an explicit completion step (`Complete`,
  `DeliverReply`), and there is no concurrency.
- `Date.now()` message ids and `toLocaleTimeString` times. They depend on the clock
  and the locale, so they are parameters of `Send` and `DeliverReply`.
- `toast` from the sonner library. It is foreign UI code, so a handler returns the
  toast it raises as a `Toast` value.
- DOM effects: the `dark` class on `document.documentElement` (`App.tsx:27-33`) and
  `scrollIntoView` (`AIChat.tsx:20-26`).
- `Text.ToLower`: maps only ASCII letters, not full Unicode `toLowerCase`. This
  changes replies. In JavaScript, U+212A KELVIN SIGN lower-cases to ASCII `k`, so
  "trac\u212A" gets the tracking reply. The model gives it the default reply.
  Other non-ASCII characters that lower-case to an ASCII keyword letter differ the
  same way. The Hindi keyword is unaffected, because Devanagari has no case.
  Mappings that change the string's length are not modelled either.
- `Text.ToUpper`: maps only ASCII letters, not full Unicode `toUpperCase`. It feeds
  no keyword match, only the tracker's displayed id (`TrackIssue.tsx:25`). There,
  `é` becomes `É` and `ß` becomes `SS` in the source, but both stay unchanged in the
  model.
- `Tracker.LookupFor`: `|r.id| == |typed|` holds in the model only. In the source,
  an id containing `ß` gets longer when upper-cased.
- `Html.IsValidEmail`: checks the ASCII grammar of a valid e-mail address. A
  browser that converts a non-ASCII domain to its ASCII form before checking it
  accepts addresses the model rejects.
- `Shell.App.HandleLogout`: nothing in the source calls it. `App.tsx:88` passes it
  to the navigation bar, whose props (`Navbar.tsx:5-12`) declare no `onLogout`. The
  dashboard's Logout button (`Dashboard.tsx:48-57`) has no click handler. So once
  signed in, the shell cannot sign out. The method models the handler as written.
- JavaScript strings are UTF-16 code-unit sequences; the model uses sequences of
  Unicode scalar values.
- `Tracker.TrackIssue.Search`, `Support.Contact.Submit`, `SignIn.Login.Submit`:
  these require the submit button to be enabled, as the disabled attribute ensures.
  Submitting again while busy is therefore not modelled.
- The static pages are not part of this model: Hero, About, Privacy, Terms, Credits
  and Sitemap. They do nothing beyond calling `Navigate`.
- EmergencyButton's open/closed panel (`EmergencyButton.tsx:13,20`) and the
  navigation bar's two dropdown flags (`isReportDropdownOpen` and `isLangDropdownOpen`,
  `Navbar.tsx:29-30`) are not part of this model. They are presentation state that
  their own buttons toggle. The flags only show or hide the menus. The menu items call
  the shell's `onNavigate` and `setLanguage` (`Navbar.tsx:85-97`, `:145-148`), which
  `Shell.App.Navigate` and `Shell.App.SetLanguage` model. EmergencyButton never
  navigates: its entries are `tel:` links (`EmergencyButton.tsx:44`), and dialling is
  outside this model.
- The Dashboard's sidebar buttons, search box and pagination buttons have no handlers
  in the source, so there is nothing to model. Its stats cards and its "Showing 5 of
  124 results" text are static.
- The wizard's "Use Current", "Voice Note" and "Add Photo" buttons have no handlers,
  so `voiceNote` never changes.

# Sign-up, login and data-table logic of a social-media analytics dashboard

This project models, in Dafny, the parts of the dashboard's front end that
carry logic of their own:

- **The sign-up form** (`SignupForm`): four validators (name, email,
  password, password confirmation) that return an error message or `""`, and
  the form's state — the four field values, their four error strings and the
  `loading` flag — changed by keystroke, blur, submit and "continue with
  GitHub" handlers. The form is a class whose fields are the component's
  state; each handler is one atomic method over the state the event finds.
- **The login form** (`LoginForm`): the same structure with two fields; its
  email check is the sign-up form's, its password check only asks for
  presence.
- **The tables page** (`TablesPage`): the free-text search over the
  engagement records and the follower records, the choice between loading
  skeleton, load-error view and tables, and the placeholder row of an empty
  table.

Shared pieces: `Text` (the ECMAScript whitespace class used by both `trim()`
and the regular-expression class `\s`, trimming, lower-casing, substring
search), `Patterns` (the regular expressions of the validators, written as
the languages they accept) and `AuthCalls` (the outcomes of a call to the
authentication client, and how a message is drawn out of an error value).

The external authentication client is not modelled: each handler that calls
it takes the call's `ApiOutcome` as a parameter — resolved without error,
resolved with `error` set, or thrown. What a handler does outside its own
state (calls, notifications, navigation) is appended to a ghost log
`effects`, so that "no call is made on invalid input" and "exactly one of
navigation and a failure notice follows a call" are stated about the log.
The controls are disabled while `loading` is set, so every handler requires
`!loading`; the class invariant `Valid()` says `loading` stays set exactly
when the last logged effect leaves the page (the navigation to the
dashboard, or a GitHub call that resolved without error).

Two behaviours of the source worth knowing, both proved:

- A name of 50 characters after trimming is accepted, although the message
  for long names says "less than 50" (`SignupForm.NameLengthBoundary`).
- A keystroke in the password field re-checks a filled-in confirmation
  against the password as it was *before* the keystroke (the handler's
  closure still holds the old value), so typing the password that now equals
  the confirmation leaves "Passwords do not match" on screen
  (`SignupForm.StaleConfirmationScenario`).

## Model

| member | source | states |
|---|---|---|
| `Text.TrimStartSpec` | components/signup-form.tsx:34 | the result is the suffix of the input left after its whole whitespace prefix, and does not start with whitespace |
| `Text.TrimEndSpec` | components/signup-form.tsx:34 | the result is the prefix of the input left before its whole whitespace suffix, and does not end with whitespace |
| `Text.TrimSpec` | components/signup-form.tsx:34-40 | `trim()`: the input minus an all-whitespace prefix and suffix, neither starting nor ending with whitespace |
| `Text.TrimEmptyIffBlank` | components/signup-form.tsx:34 | a string trims to nothing exactly when every character is whitespace |
| `Text.Trim` | components/signup-form.tsx:34 | `trim()` never lengthens a string |
| `Text.LowerChar` | app/dashboard/tables/page.tsx:37-38 | A–Z and the Latin-1 capitals U+00C0–U+00DE (except U+00D7) move up by 0x20 to their lower-case letters; every other character is unchanged; no result is such a capital |
| `Text.Lower` | app/dashboard/tables/page.tsx:37-38 | `toLowerCase()` keeps the length, maps each character by `LowerChar`, and leaves no capital it maps |
| `Text.LowerIgnoresAsciiCase` | app/dashboard/tables/page.tsx:37-38 | two strings that differ only in ASCII letter case lower-case to the same string, which is what makes the search case-insensitive |
| `Text.LowerIdempotent` | app/dashboard/tables/page.tsx:37-38 | lower-casing twice gives the same as lower-casing once |
| `Text.Includes` | app/dashboard/tables/page.tsx:37-39 | `includes(q)` is true exactly when `q` occurs as a contiguous run somewhere in the string |
| `Text.IncludesEmpty` | app/dashboard/tables/page.tsx:37-39 | every string includes the empty string |
| `Patterns.MatchesEmail` | components/signup-form.tsx:50-51 | a string the email pattern accepts has at least five characters and contains `@` |
| `Patterns.ShapeOfMatch` | components/signup-form.tsx:50-51 | a match of the email pattern has no whitespace, exactly one `@`, and a `.` after the `@` with a character on each side |
| `Patterns.MatchOfShape` | components/signup-form.tsx:50-51 | every string of that shape matches the email pattern |
| `Patterns.MatchesEmailIffShape` | components/signup-form.tsx:50-51 | the email pattern accepts exactly the strings of that shape |
| `AuthCalls.ThrownMessage` | components/signup-form.tsx:168-186 | probe order for a thrown value: nested `error.message`, else own `message`, else the value if it is a string, else the fallback |
| `AuthCalls.ReturnedMessage` | components/signup-form.tsx:154-158 | a returned error's message is shown when non-empty, else the fallback; the result is never empty when the fallback is not |
| `AuthCalls.EmptyMessageAsymmetry` | components/login-form.tsx:88-119 | a thrown empty message is shown as empty, a returned empty message falls back |
| `AuthCalls.ThrownMessageProvenance` | components/login-form.tsx:102-119 | the message of a thrown value is one of the strings it carries or the fallback |
| `AuthCalls.GitHubReaction` | components/login-form.tsx:136-165 | after the GitHub call nothing follows on success, and exactly one failure notice with the given title otherwise; a returned error's notice shows its message when non-empty and "Failed to continue with GitHub" otherwise; a thrown value's notice shows the probed message, that same text when it carries none |
| `SignupForm.ValidateName` | components/signup-form.tsx:33-44 | the name check returns `""` or one of its three messages |
| `SignupForm.NameVerdicts` | components/signup-form.tsx:33-44 | valid exactly for 2 to 50 characters after trimming; "required" exactly for blank names; "too short" for 1; "too long" above 50 |
| `SignupForm.NameLengthBoundary` | components/signup-form.tsx:40-43 | a trimmed length of 50 passes, 51 gets the "less than 50" message |
| `SignupForm.ValidateEmail` | components/signup-form.tsx:46-55 | the email check returns `""`, "Email is required" or "Please enter a valid email address" |
| `SignupForm.EmailVerdicts` | components/signup-form.tsx:46-55 | valid exactly for strings of the email shape; "required" exactly for `""`; "invalid" for every other string |
| `SignupForm.ValidatePassword` | components/signup-form.tsx:57-74 | the password check returns `""` or one of its five messages |
| `Patterns.HasLower` | components/signup-form.tsx:64 | the lookahead `(?=.*[a-z])`: some character is an ASCII lower-case letter; no contract of its own, its role is stated by `SignupForm.PasswordVerdicts` |
| `Patterns.HasUpper` | components/signup-form.tsx:67 | the lookahead `(?=.*[A-Z])`: some character is an ASCII capital; no contract of its own, its role is stated by `SignupForm.PasswordVerdicts` |
| `Patterns.HasDigit` | components/signup-form.tsx:70 | the lookahead `(?=.*\d)`: some character is an ASCII digit; no contract of its own, its role is stated by `SignupForm.PasswordVerdicts` |
| `SignupForm.PasswordVerdicts` | components/signup-form.tsx:57-74 | valid exactly for length at least 8 with a lower-case letter, an upper-case letter and a digit; each message exactly when its rule is the first broken |
| `SignupForm.PasswordExamples` | components/signup-form.tsx:61-73 | "abc" is too short, "abcdefgh" lacks an upper-case letter, "Abcdefgh" lacks a digit, "Abcdefg1" passes |
| `SignupForm.ValidateConfirmPassword` | components/signup-form.tsx:76-84 | the confirmation check returns `""`, "Please confirm your password" or "Passwords do not match" |
| `SignupForm.ConfirmVerdicts` | components/signup-form.tsx:76-84 | valid exactly when the confirmation is non-empty and equal to the password; "required" checked before "do not match" |
| `SignupForm.KeystrokeError` | components/signup-form.tsx:89-91 | a keystroke never raises an error on a field showing none, leaves the error alone for an empty value, and otherwise shows the validator's verdict |
| `SignupForm.SubmitReaction` | components/signup-form.tsx:154-191 | at least one effect follows every sign-up call |
| `SignupForm.SubmitConcludesOnce` | components/signup-form.tsx:154-191 | after the sign-up call, navigation happens exactly on success and a failure notice exactly otherwise; a returned error's notice shows its message when non-empty and "Failed to create account. Please try again." otherwise; a thrown value's notice shows the probed message, that same text when it carries none |
| `SignupForm.SubmitAcceptance` | components/signup-form.tsx:127-138 | a submit passes validation exactly for a 2–50 character trimmed name, an email of the stated shape, a strong password and an equal confirmation |
| `SignupForm.Form.constructor` | components/signup-form.tsx:22-30 | all fields and errors start empty, `loading` false, nothing logged |
| `SignupForm.Form.HandleNameChange` | components/signup-form.tsx:86-92 | the name takes the new value; its error is re-validated only when it was showing and the value is non-empty; nothing else changes |
| `SignupForm.Form.HandleEmailChange` | components/signup-form.tsx:94-100 | as for the name, with the email validator |
| `SignupForm.Form.HandlePasswordChange` | components/signup-form.tsx:102-112 | as for the name, and a filled-in confirmation is re-checked against the password from before the keystroke |
| `SignupForm.Form.HandleConfirmPasswordChange` | components/signup-form.tsx:114-122 | as for the name, checking against the current password |
| `SignupForm.Form.HandleNameBlur` | components/signup-form.tsx:256 | the name's error becomes the validator's verdict on the current name; nothing else changes |
| `SignupForm.Form.HandleEmailBlur` | components/signup-form.tsx:275 | the email's error becomes the validator's verdict on the current email |
| `SignupForm.Form.HandlePasswordBlur` | components/signup-form.tsx:298 | the password's error becomes the validator's verdict on the current password |
| `SignupForm.Form.HandleConfirmPasswordBlur` | components/signup-form.tsx:321-323 | the confirmation's error becomes the verdict against the current password |
| `SignupForm.Form.HandleSubmit` | components/signup-form.tsx:124-192 | all four errors are overwritten with fresh verdicts; on any failure only a validation notice follows and `loading` stays false; otherwise the call is made and `loading` stays set only on success, with no field error touched |
| `SignupForm.Form.HandleGitHubSignup` | components/signup-form.tsx:194-232 | `loading` ends set exactly when the call resolves without an error; fields and errors are untouched; the log gains the call and its reaction |
| `SignupForm.StaleConfirmationScenario` | components/signup-form.tsx:102-112 | typing "Abcdefg", confirming "Abcdefg1", then typing "Abcdefg1" leaves equal values flagged "Passwords do not match" |
| `LoginForm.ValidateEmail` | components/login-form.tsx:29-38 | the email check returns `""`, "Email is required" or "Please enter a valid email address" |
| `LoginForm.ValidatePassword` | components/login-form.tsx:40-45 | the password check returns `""` or "Password is required" |
| `LoginForm.EmailAgreesWithSignup` | components/login-form.tsx:29-38 | the login email check returns what the sign-up one does for every input, so accepts exactly the email shape |
| `LoginForm.PasswordVerdicts` | components/login-form.tsx:40-45 | valid exactly for a non-empty password, "required" otherwise; every password valid at sign-up is valid at login |
| `LoginForm.SubmitReaction` | components/login-form.tsx:88-125 | at least one effect follows every sign-in call |
| `LoginForm.SubmitConcludesOnce` | components/login-form.tsx:88-125 | navigation exactly on success, a failure notice otherwise; a returned error's notice shows its message when non-empty and "Invalid email or password" otherwise; a thrown value's notice shows the probed message, "Failed to login" when it carries none |
| `LoginForm.Form.constructor` | components/login-form.tsx:22-26 | both fields and errors start empty, `loading` false, nothing logged |
| `LoginForm.Form.HandleEmailChange` | components/login-form.tsx:47-53 | the email takes the new value; its error is re-validated only when it was showing and the value is non-empty |
| `LoginForm.Form.HandlePasswordChange` | components/login-form.tsx:55-61 | as for the email, with the presence check |
| `LoginForm.Form.HandleEmailBlur` | components/login-form.tsx:190 | the email's error becomes the verdict on the current email |
| `LoginForm.Form.HandlePasswordBlur` | components/login-form.tsx:210 | the password's error becomes the verdict on the current password |
| `LoginForm.Form.HandleSubmit` | components/login-form.tsx:63-126 | both errors are overwritten; on any failure no call is made and `loading` stays false; otherwise the call is made and `loading` stays set only on success |
| `LoginForm.Form.HandleGitHubLogin` | components/login-form.tsx:128-166 | `loading` ends set exactly when the call resolves without an error; fields and errors are untouched; the log gains the call and its reaction |
| `LoginForm.EmptySubmitScenario` | components/login-form.tsx:67-78 | the submit handler, called on the empty form, flags both fields and makes no call |
| `TablesPage.PostMatches` | app/dashboard/tables/page.tsx:36-39 | the post predicate; an empty term matches every post |
| `TablesPage.FollowerMatches` | app/dashboard/tables/page.tsx:43-45 | the follower predicate; an empty term matches every follower record |
| `TablesPage.FilteredPosts` | app/dashboard/tables/page.tsx:35-40 | the kept posts are posts of the list that match, never more than given |
| `TablesPage.FilteredFollowers` | app/dashboard/tables/page.tsx:42-46 | the kept follower records are records of the list that match, never more than given |
| `TablesPage.Search` | app/dashboard/tables/page.tsx:35-46 | the filter keeps only matching records, each matching record as often as it occurs, never more records than given |
| `TablesPage.SearchIsSubsequence` | app/dashboard/tables/page.tsx:35-46 | the kept records appear in their original order |
| `TablesPage.SearchMembership` | app/dashboard/tables/page.tsx:35-46 | a record is kept exactly when it is in the list and matches |
| `TablesPage.SearchIdempotent` | app/dashboard/tables/page.tsx:35-46 | filtering the result again with the same term gives the same result |
| `TablesPage.SearchKeepsAll` | app/dashboard/tables/page.tsx:35-46 | when every record matches, the list comes back unchanged |
| `TablesPage.SearchEmpty` | app/dashboard/tables/page.tsx:35-46 | the result is empty exactly when no record matches |
| `TablesPage.KeptRecords` | app/dashboard/tables/page.tsx:35-46 | a post is kept exactly when content or platform contains the term ignoring case or the date contains it as typed; a follower record likewise on platform and date |
| `TablesPage.EmptyTermKeepsAll` | app/dashboard/tables/page.tsx:35-46 | an empty term keeps every post and every follower record, in order |
| `TablesPage.FilteringIsStable` | app/dashboard/tables/page.tsx:35-46 | both filters keep the original order and are idempotent |
| `TablesPage.Render` | app/dashboard/tables/page.tsx:119-129 | with the data loaded, each table body has at least one row |
| `TablesPage.ViewPrecedence` | app/dashboard/tables/page.tsx:15-32 | loading shows the skeleton whatever the error; otherwise an error shows the error view; otherwise the tables |
| `TablesPage.PostTableRows` | app/dashboard/tables/page.tsx:119-129 | the engagement table shows one 7-column "No posts found" row exactly when no post matches, else one row per kept post |
| `TablesPage.FollowerTableRows` | app/dashboard/tables/page.tsx:201-211 | the follower table shows one 7-column "No follower data found" row exactly when no record matches, else one row per kept record |

## Left out

- The authentication client (`authClient.signUp.email`, `signIn.email`, `signIn.social`), the notifications (`toast`) and the router are foreign calls: the model takes a call's outcome as a parameter and records calls, notifications and navigation in a ghost log.
- SignupForm.Form.HandleSubmit, LoginForm.Form.HandleSubmit, LoginForm.EmptySubmitScenario: these model the submit handler once it runs. The inputs carry `required` (components/signup-form.tsx:253,272,295,318; components/login-form.tsx:187,207) and the email inputs are `type="email"` (components/signup-form.tsx:270; components/login-form.tsx:185), and the forms do not set `noValidate`, so the browser's own constraint validation stops the submit before the handler runs when a field is empty or the email fails the HTML email grammar (which rejects, for example, non-ASCII local parts that the script's pattern accepts); an email input also strips leading and trailing whitespace from its value. Browser constraint validation is not modelled.
- `async`/`await`, React re-rendering and state batching: each handler is one atomic step; events while `loading` is set are excluded because the controls are disabled.
- A `response` that is itself `null` on the email sign-up or login path (its `.error` access throws inside the `try`) is not a separate case; it is one of the thrown values.
- `String(x)` of arbitrary thrown objects: a thrown value's message fields are taken as already converted strings.
- SignupForm.NameVerdicts, SignupForm.PasswordVerdicts: lengths count Unicode scalar values, whereas JavaScript counts UTF-16 code units, so a character outside the Basic Multilingual Plane counts 1 here and 2 in the browser.
- Text.LowerChar: lower-cases Basic Latin and Latin-1 letters only; the rest of Unicode case mapping, including mappings that change length, is not modelled.
- The `error` of the data source is a string here, `""` standing for every falsy value (`null`, `undefined`, `""`).
- The data source hook (`useSocialMediaData`), its retry button (`refetch`), `getPlatformColor`, `formatNumber`, `toLocaleString` and all markup: rendering code or code not part of this model; a row is represented by its record.
- components/dashboard/table-skeleton.tsx: static placeholder markup with no behaviour.
- lib/auth.ts: configuration of the external authentication library from environment variables, with no logic of its own.

# Admin registration: form validation and the verification-email adapter

This project is a Dafny model of two pieces of logic from an admin web portal.

- **The admin registration form's submit handler** (`registration.dfy`, module
  `Registration`). It runs three early-return checks in a fixed order:
  1. all four fields (full name, company, email, password) must be non-empty;
  2. the email must match `/^[^\s@]+@[^\s@]+\.[^\s@]+$/`;
  3. the password must have at least 6 characters.

  Each failing check shows its own alert. Passing all three shows the success
  alert. The handler only reads the form, so it is the function `Validate`
  from a `Form` value to an `Outcome`, and it cannot alter the fields. The
  regular expression is the predicate `MatchesEmailRegex`: the string splits
  as run, `@`, run, `.`, run, where a run is one or more characters that are
  neither JavaScript whitespace (`\s`, spelled out as `IsWs`) nor `@`. The
  password length is JavaScript's `length`, which counts UTF-16 code units
  (`Utf16Length`).
- **The EmailJS adapter** (`email_service.dfy`, module `EmailService`). Its
  class `Service` holds the `initialized` flag.
  - The constructor clears the flag and runs `Init`.
  - `SendVerificationCode` runs the configuration guards in order. It then
    builds the template parameters and calls `emailjs.send`. It resolves with
    a success record, or throws an Error whose message is classified from the
    provider's HTTP status.
  - `TestConfiguration` reports the flag and which variables are set.

  The environment (whether `window` exists, and the three
  `NEXT_PUBLIC_EMAILJS_*` variables) is the record `Env`. Two EmailJS calls are
  replaced by parameters: whether `emailjs.init` throws (`initThrows`), and
  what `emailjs.send` answers (`SendReply`: a response, or a rejection with an
  optional numeric status). `SendVerificationCode` also returns the call it
  made to `emailjs.send` (`request`), so "the send is reached only when the
  guards pass" can be stated.

Some behaviour worth stating plainly, as the code has it:
- the only password rule is a length of at least 6 (UTF-16 code units);
- the form has no password-confirmation field, and the handler itself does
  not trim or otherwise clean the values it receives;
- the template parameters carry no company, and the subject is a constant
  that does not contain the code;
- a rejected send always throws; the adapter never resolves with a failure
  record.

## Model

| member | source | states |
|---|---|---|
| `Registration.Utf16Length` | src/app/admin/registration/page.js:28 | `password.length` counts UTF-16 code units: between the number of code points and twice it, and equal to it exactly when no character lies above U+FFFF |
| `Registration.EmailRegexCharacterization` | src/app/admin/registration/page.js:21-22 | the regular expression accepts a string exactly when the string has one `@`, a non-empty part before it, no whitespace, and a `.` in the domain that is neither its first nor its last character (both directions) |
| `Registration.AcceptedEmailShape` | src/app/admin/registration/page.js:21-25 | an email that gets past the email check has exactly one `@`, a non-empty local part, no whitespace, and an inner `.` in the domain |
| `Registration.MissingFieldWins` | src/app/admin/registration/page.js:15-18 | if any of the four fields is empty, the outcome is "Please fill all fields." whatever the other fields hold, including a malformed email or a short password |
| `Registration.OutcomeClassification` | src/app/admin/registration/page.js:15-31 | the checks run presence, then email shape, then password length: each failure outcome occurs exactly when the earlier checks pass and its own check fails |
| `Registration.SuccessExactly` | src/app/admin/registration/page.js:15-43 | the outcome is Success exactly when all four fields are non-empty, the email has the split-at-`@` shape, and the password is at least 6 UTF-16 code units long |
| `Registration.PasswordLengthBounds` | src/app/admin/registration/page.js:28-31 | once the earlier checks pass, fewer than 3 characters is always too short and 6 or more characters always succeeds; for Basic Multilingual Plane passwords, "too short" means exactly "fewer than 6 characters" |
| `Registration.PasswordLengthInCodeUnits` | src/app/admin/registration/page.js:28 | worked example: three emoji measure 6 units, and so do four ASCII letters and one emoji |
| `Registration.Utf16LengthConcat` | src/app/admin/registration/page.js:28 | the measured length of a concatenation is the sum of the measured lengths |
| `Registration.WhitespaceOnlyFieldsPass` | src/app/admin/registration/page.js:15-31 | presence rejects only the empty string and the password rule is about length only: a whitespace-only name and company with a six-space password are accepted |
| `Registration.AlertDistinct` | src/app/admin/registration/page.js:16-43 | each of the four outcomes has its own alert text, so the alert identifies the outcome |
| `EmailService.Service.constructor` | src/utils/emailService.js:4-7 | after construction, the flag is set exactly when a window exists, the public key is a non-empty string, and `emailjs.init` did not throw; the adapter invariant (flag set only with window and key) holds |
| `EmailService.Service.Init` | src/utils/emailService.js:9-21 | `init` sets the flag when it succeeds and otherwise leaves it unchanged; it keeps the adapter invariant |
| `EmailService.GuardError` | src/utils/emailService.js:24-35 | a guard failure is always one of the three configuration errors |
| `EmailService.GuardOrder` | src/utils/emailService.js:24-35 | guard order is not-initialized, then missing service ID, then missing template ID; a missing flag wins whatever the environment holds; the send is reached exactly when all three guards pass |
| `EmailService.GuardErrorsDistinct` | src/utils/emailService.js:25-34 | the three guard errors differ from each other and from every send-failure message |
| `EmailService.Service.SendVerificationCode` | src/utils/emailService.js:23-97 | no send is attempted exactly when a guard fails, and then the first failing guard's error is thrown; otherwise `emailjs.send` gets the service ID, the template ID and the template parameters; a delivery resolves with `success: true` and "Verification code sent successfully"; a rejection throws the classified failure message, so a rejected send never resolves and every resolved outcome has `success: true`; the flag is not modified |
| `EmailService.SendFromFreshService` | src/utils/emailService.js:4-35 | for a freshly constructed adapter whose `init` could not succeed, sending throws the not-initialized error without calling `emailjs.send`; with a successful `init` and both IDs set, the send is attempted |
| `EmailService.TemplateParams` | src/utils/emailService.js:44-53 | the parameters have exactly the eight keys, with the code unchanged under `verification_code`, `code` and `message` |
| `EmailService.TemplateParamsFaithful` | src/utils/emailService.js:44-53 | `to_email` is the email and `user_name` the user name; `from_name`, `reply_to` and `subject` are the same for every call; two calls give equal parameters exactly when their email, name and code are equal |
| `EmailService.ClassifyExactly` | src/utils/emailService.js:81-93 | 412 is template mismatch, 400 invalid request, 401 unauthorized, 402 payment required, 0 network error, and any other or absent status is the generic "try again later" class |
| `EmailService.FailureMessage` | src/utils/emailService.js:79-93 | every send-failure message strictly extends "Failed to send verification email. " |
| `EmailService.FailureMessageDeterminesKind` | src/utils/emailService.js:79-95 | two statuses produce the same thrown message exactly when they fall in the same class, so each class has one message |
| `EmailService.Service.TestConfiguration` | src/utils/emailService.js:100-110 | the report gives the current flag and, for each of service ID, template ID and public key, whether it is a non-empty string; it changes nothing; a report with the flag set also reports the public key set |
| `EmailService.ConfigurationPredictsSend` | src/utils/emailService.js:23-35 | for an adapter just constructed, the report from `testConfiguration` has its initialized, serviceId and templateId entries all true exactly when the next `sendVerificationCode` calls `emailjs.send`; the report's flag is the constructor's `init` result |

## Left out

- Rendering, React state setters, `e.preventDefault()`, `alert` and `console` output. The model returns the outcome or message instead of showing or logging it.
- The real `emailjs.init` and `emailjs.send` calls. They are a foreign network library. The model takes whether `init` throws and what `send` answers as parameters.
- Promises. `sendVerificationCode` and `testConfiguration` are `async`. A throw is modelled as the `Thrown` outcome, and resolving as `Resolved` or a plain result.
- Non-numeric or non-integer `error.status` values (for example the string `"412"`, `NaN` or `412.5`). They fail every strict `===` comparison just like an absent status, so the model folds them into `None`.
- What the browser does before the handler runs. It cleans input values: it strips line breaks from every field, and for the `type="email"` field also leading and trailing ASCII whitespace. Its built-in validation for `required` and `type="email"` can block submission before the handler is called. `Validate` models the handler on whatever strings reach it.
- `Registration.Validate`, `EmailService.Classify` and `EmailService.Reason` carry no contract of their own. What they compute is stated by the lemmas in the table.
- The module-level `export const emailService = new EmailService()` singleton. It is modelled by the constructor and by `SendFromFreshService`, not as global state.
- The Gmail send route, the dashboard's local-storage check, the login stub and the configuration display component. They are I/O or display only; `src/app/api/send-verification/route.js`, `src/app/admin/dashboard/page.js`, `src/app/login/page.js` and `src/components/ConfigCheck.js` are not part of this model.
- Strings are modelled as sequences of Unicode code points, while JavaScript strings are sequences of UTF-16 code units. A JavaScript string holding an unpaired surrogate has no counterpart in the model. On well-formed UTF-16 strings the model agrees with JavaScript: `Utf16Length` counts a code point above U+FFFF as two units, and the regular expression, which has no `u` flag and so matches code units, accepts exactly the strings that `MatchesEmailRegex` accepts over code points, because neither half of a surrogate pair is whitespace or `@`.

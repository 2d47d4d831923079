# Signup wizard of the Ogwini school portal, in Dafny

This project models the signup wizard of the portal's registration page
(`src/pages/SignupPage.tsx`) and proves properties about it. The wizard takes
a new user through a fixed order of steps:

1. Choose a role.
2. Enter account details.
3. Enter further personal details.
4. Give payment details. Only learners have this step.
5. See a summary and submit.

Each "Next Step" press runs a validation gate for the current step. The
finished registration then redirects to a dashboard for the chosen role.

The model has two parts:

- **Imperative part.** The page keeps its state in React state and changes it
  from event handlers. The model is the class `Wizard.SignupWizard`, with
  fields `step`, `form` and `uploads`. Its methods `Next`, `Previous`,
  `SetRole`, `SetField` and `SelectFile` each say exactly what the new state
  is. Each also keeps the object invariant `Valid()`, which is
  `1 <= step <= TotalSteps(form.role)`.
- **Pure part.** These are functions with lemmas:
  - the email check (`Email`);
  - the role lookups (`Roles`);
  - the step configuration (`Steps`);
  - the form record, the step gate, the upload slots and the payment
    reference (`Form`).

Modules:

| file | module | contents |
|---|---|---|
| wrappers.dfy | `Wrappers` | `Option`, `Outcome` |
| email.dfy | `Email` | JavaScript `\s`, the email regular expression, an executable checker, and proofs that they agree |
| roles.dfy | `Roles` | `Role`, role strings, dashboard routes, role labels |
| steps.dfy | `Steps` | step count, step labels, final step, which buttons and panels each step shows |
| form.dfy | `Form` | `FormData`, field edits, the step gate, uploads, payment reference |
| wizard.dfy | `Wizard` | the `SignupWizard` class and two client walkthroughs |

How the source is rendered in Dafny:

- **Email check.** The source's regular expression is
  `^[^\s@]+@[^\s@]+\.[^\s@]+$`. `Email.MatchesPattern` gives its meaning
  directly. `Email.WellFormedAddress` describes the same strings by their
  parts: no whitespace, exactly one `@`, a non-empty local part, and a dot
  inside the domain with text on both sides. `Email.ValidEmail` is an
  executable checker. Lemmas prove all three equal.
- **Whitespace.** `\s` is the full ECMAScript set of white-space and
  line-terminator code points: U+0009–U+000D, U+0020, U+00A0, U+1680,
  U+2000–U+200A, U+2028, U+2029, U+202F, U+205F, U+3000 and U+FEFF.
- **Password length.** It is counted in Dafny characters, which are Unicode
  scalar values. The source uses JavaScript `length`, which counts UTF-16
  code units.
- **Role check on step 1.** The source tests `!formData.role` on step 1. In
  the model a `Role` is always one of the five values, so that check can never
  fail. `Form.Gate` therefore has no branch for it, and
  `Form.OtherStepsUngated` proves that step 1 always passes.
- **Grade check.** The grade `<select>` (:460-473) offers only the empty
  choice and the five grades, but `nextStep` (:146) checks only that the grade
  is not empty. The model follows `nextStep`: see `Form.DetailsGate` and
  `Form.GradeOptionsPass`.
- **Going back.** Previous is rendered only when `step > 1` (:664), inside
  the navigation bar that the final screen hides (:662). `Steps.PreviousOffered`
  models this. `SignupWizard.Previous` asks only for `step > 1`, which is
  less than the page guarantees.
- **Going forward.** `nextStep` itself never checks for the final step. The
  page simply does not render "Next Step" there.
  `SignupWizard.Next` therefore requires `NextOffered`, which is how the
  invariant stays true.

## Model

| member | source | states |
|---|---|---|
| Email.IndexOf | src/pages/SignupPage.tsx:96 | the first index holding the character, or none when the character does not occur |
| Email.HasWhitespace | src/pages/SignupPage.tsx:96 | true exactly when some character is in the `\s` class |
| Email.IsWhitespace | src/pages/SignupPage.tsx:96 | the `\s` class of the regular expression: the ECMAScript white-space and line-terminator code points |
| Email.MatchesPattern | src/pages/SignupPage.tsx:96 | the language of `^[^\s@]+@[^\s@]+\.[^\s@]+$`: an atom, `@`, an atom, `.`, an atom, covering the whole string |
| Email.ValidEmail | src/pages/SignupPage.tsx:96 | `validateEmail`: no whitespace, a first `@` after a non-empty local part, no second `@`, and a dot strictly inside the domain |
| Email.ValidEmailIsWellFormed | src/pages/SignupPage.tsx:96 | the checker accepts exactly the strings with no whitespace, exactly one `@` after a non-empty local part, and a domain whose dot is neither its first nor its last character |
| Email.WellFormedIsPattern | src/pages/SignupPage.tsx:96 | that description is exactly the language of `^[^\s@]+@[^\s@]+\.[^\s@]+$` |
| Email.ValidEmailIsPattern | src/pages/SignupPage.tsx:96 | the checker accepts a string if and only if the regular expression matches it |
| Email.RejectsDotlessDomain | src/pages/SignupPage.tsx:96 | "foo@bar" does not match |
| Email.AcceptsDottedDomain | src/pages/SignupPage.tsx:96 | "foo@bar.com" matches |
| Email.AcceptsManyDots | src/pages/SignupPage.tsx:96 | "a@b.c.d" matches, because dots are allowed before the last one |
| Email.RejectsSpace | src/pages/SignupPage.tsx:96 | an address containing a space does not match |
| Roles.RoleNameInjective | src/pages/SignupPage.tsx:17 | the five role strings are pairwise distinct |
| Roles.DashboardRoute | src/pages/SignupPage.tsx:196-214 | every role's route lies under `/dashboard/` |
| Roles.RouteForName | src/pages/SignupPage.tsx:196-214 | the redirect `switch` on the role string: each of the five role strings to its dashboard, anything else to `/portal` |
| Roles.SwitchMatchesTable | src/pages/SignupPage.tsx:196-214 | the redirect `switch` on the role string sends each role to its dashboard in the table |
| Roles.PortalOnlyForUnknownNames | src/pages/SignupPage.tsx:212-213 | the `/portal` default is taken exactly for strings that are no role's value, so a typed role never reaches it |
| Roles.DashboardRouteInjective | src/pages/SignupPage.tsx:196-214 | different roles redirect to different dashboards |
| Roles.FindOption | src/pages/SignupPage.tsx:645 | `find` returns the first option with the role, or nothing exactly when no option has it |
| Roles.RoleOptionsCoverEveryRoleOnce | src/pages/SignupPage.tsx:57-63 | the role picker lists every role, and none twice |
| Roles.RoleLabel | src/pages/SignupPage.tsx:645 | `roleOptions.find(r => r.value === role)?.label`: the caption of the first picker entry for the role, or nothing when none has it |
| Roles.ReadyDashboardName | src/pages/SignupPage.tsx:637 | the final screen's conditional chain: Learner, Teacher, Admin, Principal, and Grade Head for the remaining role |
| Roles.RoleLabelTotal | src/pages/SignupPage.tsx:645 | the summary's `?.label` lookup always finds a label, namely Learner, Teacher, Grade Head, Principal or Administrator |
| Roles.ReadyNameAgreesWithLabel | src/pages/SignupPage.tsx:637 | the final screen's dashboard name equals the picker label for every role except admin, which shows "Admin" instead of "Administrator" |
| Steps.TotalSteps | src/pages/SignupPage.tsx:228 | the step count is 5 for a learner and 4 for every other role |
| Steps.StepLabels | src/pages/SignupPage.tsx:229-231 | one label per step, starting Role, Account, Details and ending Complete; "Payment" appears only for learners |
| Steps.IsFinalStep | src/pages/SignupPage.tsx:630 | the final-screen condition: step 4 for a non-learner or step 5 for a learner |
| Steps.NextOffered | src/pages/SignupPage.tsx:662-671 | "Next Step" is rendered exactly when the final-screen condition is false |
| Steps.PreviousOffered | src/pages/SignupPage.tsx:662-668 | "Previous" is rendered exactly when the step is not final and above 1 |
| Steps.SubmitOffered | src/pages/SignupPage.tsx:630-657 | "Complete Registration" is rendered exactly on the final screen |
| Steps.PanelsShown | src/pages/SignupPage.tsx:286-630 | the panels whose render conditions hold: role on step 1, account on 2, details on 3, payment on 4 for a learner, and the summary on the final step |
| Steps.FinalStepIsLast | src/pages/SignupPage.tsx:630 | the final-screen condition holds exactly at step `TotalSteps(role)`, whose label is Complete |
| Steps.NavigationStaysInRange | src/pages/SignupPage.tsx:662-672 | from a step in range, the step Next leads to and the step Previous leads to are in range, and exactly one of Next and Submit is offered |
| Steps.PanelsMatchLabels | src/pages/SignupPage.tsx:286-630 | inside the step range exactly one panel renders, the one the progress bar names for that step; outside the range none renders |
| Form.InitialForm | src/pages/SignupPage.tsx:74-88 | the initial form: role learner and every one of the twelve text fields empty |
| Form.WithField | src/pages/SignupPage.tsx:98-100 | the named field takes the new value; every other field and the role keep their old values |
| Form.FormExtensionality | src/pages/SignupPage.tsx:19-33 | two forms are equal when their roles and all their fields are equal |
| Form.WithFieldUnchanged | src/pages/SignupPage.tsx:99 | writing back a field's own value leaves the form unchanged |
| Form.WithFieldOverrides | src/pages/SignupPage.tsx:99 | a second edit of a field overrides the first |
| Form.WithFieldCommutes | src/pages/SignupPage.tsx:99 | edits of two different fields can be applied in either order |
| Form.Gate | src/pages/SignupPage.tsx:120-150 | `nextStep`'s checks in order: on step 2, a missing required field, then an invalid email, then a password under 6 characters, then a mismatched confirmation; on step 3, a learner without a grade; otherwise pass |
| Form.AccountGate | src/pages/SignupPage.tsx:127-144 | step 2 advances exactly when the names are non-empty, the email matches the pattern, the password has at least 6 characters and equals its confirmation; each refusal reports the first broken rule in the page's order |
| Form.DetailsGate | src/pages/SignupPage.tsx:145-150 | step 3 advances unless the role is learner and the grade is empty; the only refusal is Select Grade |
| Form.GradeOptionsPass | src/pages/SignupPage.tsx:41-47 | every grade in the picker satisfies step 3 |
| Form.OtherStepsUngated | src/pages/SignupPage.tsx:121-126 | every step other than 2 and 3, including steps 1 and 4, always advances |
| Form.PhoneNotRequired | src/pages/SignupPage.tsx:128 | the phone number never changes any step's gate |
| Form.PasswordLengthBoundary | src/pages/SignupPage.tsx:136-139 | with otherwise valid details, "abc12" is refused as weak and "abc123" with a matching confirmation passes |
| Form.PickedFile | src/pages/SignupPage.tsx:103 | the picked file is the first file chosen, and nothing when no files or an empty list come back |
| Form.WithUpload | src/pages/SignupPage.tsx:104 | one upload slot gets the new value; the other two keep theirs |
| Form.PaymentReference | src/pages/SignupPage.tsx:573 | the reference is "REG-" followed by the ID number, or by "[YOUR ID]" when the ID number is empty |
| Form.PaymentReferenceInjective | src/pages/SignupPage.tsx:573 | different non-empty ID numbers give different references |
| Form.PaymentReferencePlaceholderCollides | src/pages/SignupPage.tsx:573 | an empty ID number and the typed ID "[YOUR ID]" give the same reference |
| Wizard.SignupWizard.constructor | src/pages/SignupPage.tsx:69-94 | the wizard starts at step 1 with every text field empty, role learner and no documents; the invariant holds |
| Wizard.SignupWizard.Next | src/pages/SignupPage.tsx:120-152 | on Pass the step becomes exactly step + 1; on Fail the step is unchanged; the form and uploads never change; the outcome is the step's gate; the invariant holds |
| Wizard.SignupWizard.Previous | src/pages/SignupPage.tsx:664-665 | from a step above 1, the step decreases by one and nothing else changes; the invariant holds |
| Wizard.SignupWizard.SetRole | src/pages/SignupPage.tsx:295-299 | on step 1, only the role changes; the invariant holds for the new role's step count |
| Wizard.SignupWizard.SetField | src/pages/SignupPage.tsx:98-100 | only the named field changes; the step, the role and the uploads stay as they were |
| Wizard.SignupWizard.SelectFile | src/pages/SignupPage.tsx:102-104 | only the chosen slot changes, and it gets the first picked file or nothing |

`Wizard.TeacherWalkthrough` and `Wizard.SwitchRoleKeepsAccountData` are
client methods that use only the contracts above. The first shows that a
teacher with valid account data reaches the final screen at step 4 and is
redirected to `/dashboard/teacher`. The second shows that going back to
step 1 and switching from learner to teacher keeps the entered account data
and shortens the wizard to four steps.

## Left out

- Page rendering (markup, CSS and icons) is not modelled. The only parts
  kept are the conditions that decide which panel and which buttons appear
  (`Steps.PanelsShown`, `NextOffered`, `PreviousOffered`, `SubmitOffered`).
- The progress bar's styling per step (done, current, pending) is left out.
  It is presentation, and its conditions read the same `step` the model has.
- `handleSubmit` is not modelled: account creation, the session query, the
  update of the `registrations` row, the success and failure notifications,
  the exception handler and the `loading` flag. They call an external hosted
  backend whose behaviour is not visible here. Only the final route choice
  is modelled (`Roles.RouteForName`, `Roles.DashboardRoute`).
- The three timers (a 1000 ms settling delay, a 500 ms redirect delay and the
  2000 ms reset of the "copied" indicator) are left out: they are timing.
- `copyToClipboard` and the clipboard write are browser side effects.
- The fixed banking details other than the payment reference are plain
  display constants.
- Notifications are left out. A refused "Next Step" is modelled as its
  `StepError` value and the outcome returned by `Next`. The notification's
  title and description text are not modelled.
- Wizard.SignupWizard.SetField accepts any string for any field. The page
  limits some inputs: the ID number has `maxLength={13}` (:438), and the
  grade `<select>` offers only the empty choice and the five grades
  (:460-473). The model allows more values than the page does, so its
  properties also hold for the values the page allows.
- The double-click race on Submit is concurrency of the UI event loop.
- The password visibility toggle is presentation only.
- Uploaded files are opaque `FileRef` values carrying only a name. Their
  contents, the accepted extensions and transport are not modelled.
- Form.Gate: passwords are measured in Unicode scalar values, not in
  JavaScript's UTF-16 code units. A password made of characters outside the
  Basic Multilingual Plane can be refused in the model but accepted by the
  page.

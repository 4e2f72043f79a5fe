# Onboarding wizard and sign-up form, modelled in Dafny

This project models the two stateful client-side form components of a small
front-end application.

- **The onboarding wizard** is a four-step form. Its state is a step counter
  and a seven-field `UserData` record. The steps show the PersonalInfo,
  CompanyDetails, ProductPreferences and Confirmation views. A footer offers
  "Previous" when the step is above 1. It offers "Next" when the step is below 4,
  and "Complete Onboarding" otherwise; that button logs the collected record.
  `nextStep` and `prevStep` add or subtract one and do not clamp. The counter
  stays in 1..4 only because of the footer's guards.
- **The sign-up form** has four text inputs and an error message.
  `handleSubmit` first clears the error. It then rejects a missing field with
  "All fields are required". Next it rejects a password shorter than eight with
  "Password must be at least 8 characters long". Otherwise it reports the
  four values and empties the inputs.

Files:

- `wrappers.dfy`: module `Wrappers`, the `Option` type.
- `onboarding_wizard.dfy`: module `OnboardingWizard`. The record, the field
  update and the view chosen for a step are pure functions. So are the buttons
  and inputs the screen offers (`Offered`) and the effect of an event (`Apply`,
  `Run`). Class `Wizard` holds the two state cells. Its methods are the
  component's callbacks, each tied to those functions.
- `sign_up.dfy`: module `SignUp`. The validation (`Check`) and the effect of a
  submit (`Submit`) are pure functions. Class `SignUpForm` holds the five
  state cells, the four setters and `HandleSubmit`.

`nextStep` and `prevStep` add and subtract one unconditionally (`NextStep`,
`PrevStep`). The bounds come only from the footer guards (`Offered`,
`RunStaysInBounds`).

`password.length` in the source counts UTF-16 code units. Dafny's `char` is a
Unicode scalar value, so the length test uses `Utf16Length`. In it, a character
outside the Basic Multilingual Plane counts as two. A password of four such
characters therefore passes the eight-unit test, as it does in the source.

"Complete Onboarding" is the else-branch of `step < 4`, so `Offered` offers it
whenever the step is not below 4. The lemma `Reachable` shows that on every
state reachable from mount this means exactly step 4.

## Model

| member | source | states |
|---|---|---|
| `OnboardingWizard.UserDataExtensional` | src/components/onboarding-wizard.tsx:11-19 | a record is determined by its seven fields: two records that agree on every field are equal |
| `OnboardingWizard.InitialUserData` | src/components/onboarding-wizard.tsx:21-29 | every one of the seven fields of the initial record is empty |
| `OnboardingWizard.Update` | src/components/onboarding-wizard.tsx:35-37 | the updated record holds the new value in the named field and the old value in each of the other six |
| `OnboardingWizard.UpdateSameValue` | src/components/onboarding-wizard.tsx:35-37 | writing a field's own value back leaves the record unchanged |
| `OnboardingWizard.StepOf` | src/components/onboarding-wizard.tsx:42-54 | each view has a position in 1..4, and position 4 is the Confirmation view alone |
| `OnboardingWizard.RenderStep` | src/components/onboarding-wizard.tsx:42-54 | a view is rendered exactly for steps 1..4; it is the view at that position and shows the current record; any other step renders nothing |
| `OnboardingWizard.RenderStepOf` | src/components/onboarding-wizard.tsx:42-54 | every view is what renderStep returns for its own position and record, so step and view determine each other |
| `OnboardingWizard.EditingStep` | src/components/onboarding-wizard.tsx:83-180 | the input for each field lives in one of the three editing steps 1..3 |
| `OnboardingWizard.EditableAtExactlyOneStep` | src/components/onboarding-wizard.tsx:83-180 | a field has an input at a step exactly when that step is its editing step; only the step-4 Confirmation view edits nothing, as it alone gets no update callback |
| `OnboardingWizard.Initial` | src/components/onboarding-wizard.tsx:32-33 | a mounted wizard is at step 1 with every field empty |
| `OnboardingWizard.Apply` | src/components/onboarding-wizard.tsx:35-76 | Next adds one and Previous subtracts one and neither touches the record; an edit keeps the step and changes only its field; Complete Onboarding reports the current record and changes nothing; an offered event keeps a step in 1..4 inside 1..4 |
| `OnboardingWizard.RunStaysInBounds` | src/components/onboarding-wizard.tsx:66-76 | any sequence of offered events from a step in 1..4 ends at a step in 1..4 |
| `OnboardingWizard.Reachable` | src/components/onboarding-wizard.tsx:66-77 | every state reachable from mount has its step in 1..4 and renders a view; its footer offers exactly one of Next and Complete Onboarding, and Complete Onboarding exactly at step 4 |
| `OnboardingWizard.NextThenPrevious` | src/components/onboarding-wizard.tsx:39-40 | from a step in 1..4 where Next is offered, Next then Previous are both offered and return to the same step and record |
| `OnboardingWizard.PreviousThenNext` | src/components/onboarding-wizard.tsx:39-40 | from a step in 1..4 where Previous is offered, Previous then Next are both offered and return to the same step and record |
| `OnboardingWizard.Wizard.constructor` | src/components/onboarding-wizard.tsx:32-33 | the new component is in the initial state |
| `OnboardingWizard.Wizard.UpdateUserData` | src/components/onboarding-wizard.tsx:35-37 | the record becomes the field update of the old one; the step is unchanged |
| `OnboardingWizard.Wizard.NextStep` | src/components/onboarding-wizard.tsx:39 | the step becomes the old step plus one, with no clamp; the record is unchanged |
| `OnboardingWizard.Wizard.PrevStep` | src/components/onboarding-wizard.tsx:40 | the step becomes the old step minus one, with no clamp; the record is unchanged |
| `OnboardingWizard.Wizard.ReportCompletion` | src/components/onboarding-wizard.tsx:74 | the completion handler reports the current record and modifies no state |
| `OnboardingWizard.Wizard.Handle` | src/components/onboarding-wizard.tsx:66-76 | an event the screen offers moves the component to the state and report that Apply gives |
| `SignUp.CodeUnits` | src/components/sign-up.tsx:33 | a character takes one UTF-16 code unit, or two exactly when it lies outside the Basic Multilingual Plane |
| `SignUp.Utf16Length` | src/components/sign-up.tsx:33 | a string's length in code units lies between its character count and twice that; it is zero only for the empty string and equals the character count when no character lies outside the Basic Multilingual Plane |
| `SignUp.Check` | src/components/sign-up.tsx:28-36 | "All fields are required" exactly when a field is empty; the length message exactly when no field is empty and the password is under eight units; no error exactly otherwise |
| `SignUp.Submit` | src/components/sign-up.tsx:24-47 | the error ends empty exactly when the data is reported; on success the reported data is the submitted inputs and the inputs become empty; on failure the inputs are unchanged and the error is the validation message |
| `SignUp.EmptyBeatsShort` | src/components/sign-up.tsx:28-36 | an empty password yields the missing-field message, not the length message, and nothing is reported |
| `SignUp.EmailOnlyCheckedForPresence` | src/components/sign-up.tsx:28 | replacing a non-empty email by any other non-empty string does not change the validation result |
| `SignUp.LongPasswordAccepted` | src/components/sign-up.tsx:33-36 | with every field present, a password of at least eight characters, whatever they are, is accepted and the inputs are reported |
| `SignUp.VeryShortPasswordRejected` | src/components/sign-up.tsx:33-36 | with every field present, a password of fewer than four characters is too short, whatever its characters |
| `SignUp.SecondSubmitFails` | src/components/sign-up.tsx:43-46 | right after a successful submit, submitting again fails with the missing-field message and reports nothing |
| `SignUp.FailedSubmitRepeats` | src/components/sign-up.tsx:28-36 | a failed submit leaves the inputs as they were, so submitting again gives the same outcome |
| `SignUp.SignUpForm.constructor` | src/components/sign-up.tsx:18-22 | the new form has four empty inputs and no error |
| `SignUp.SignUpForm.SetFirstName` | src/components/sign-up.tsx:63 | the first-name input takes the new value and no other state changes |
| `SignUp.SignUpForm.SetLastName` | src/components/sign-up.tsx:73 | the last-name input takes the new value and no other state changes |
| `SignUp.SignUpForm.SetEmail` | src/components/sign-up.tsx:83 | the email input takes the new value and no other state changes |
| `SignUp.SignUpForm.SetPassword` | src/components/sign-up.tsx:93 | the password input takes the new value and no other state changes |
| `SignUp.SignUpForm.HandleSubmit` | src/components/sign-up.tsx:24-47 | the new inputs, error and report are those of Submit on the old inputs, so the previous error never survives a submit |

## Left out

- JSX rendering, CSS classes and the UI-library components (cards, inputs, selects, radio groups, buttons, the alert icon). They are presentation only. The Confirmation view's display lines are left out for the same reason. The view datatype carries the record it shows.
- The fixed option lists of the company-size and industry selects and the product radio group. They do not constrain `updateUserData`, so every field is a plain string and an edit may carry any value.
- The two `console.log` calls. They become returned values: the `report` of `Wizard.ReportCompletion` and `Wizard.Handle`, and the `reported` result of `SignUpForm.HandleSubmit`.
- React's hook machinery: `useState`, functional updaters, batching of the two `setError` calls in one event, and re-rendering. Each state cell is a class field assigned in order. The state after one event is the same as the batched result.
- The form event, `e.preventDefault()` and the `async` keyword. `handleSubmit` contains no `await` and is modelled as a synchronous method.
- `src/app/layout.tsx`, `src/app/page.tsx` and `app/page.tsx` only compose components. The store provider and counter widget they mention are not part of this model.
- Lone surrogates. A JavaScript string may hold an unpaired surrogate code unit, which counts one toward `.length`; Dafny's `char` is a Unicode scalar value and cannot hold one, so such passwords are outside the model.
- Browser form validation. The email input has `type='email'` inside a form without `noValidate` (src/components/sign-up.tsx:81), so a browser may refuse a malformed non-empty email before `handleSubmit` runs. `EmailOnlyCheckedForPresence` is a statement about the handler, not about the whole form in a browser.

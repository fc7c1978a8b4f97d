# Prize-claim form controller, in Dafny

This project models the form controller of the `App` component of a
single-page prize-claim form. A visitor arrives with a `qr` parameter in the
page URL. The page asks a remote spreadsheet service whether that QR code is
active, and then either refuses the visitor or shows a form for first name
(`nombre`), last name (`apellido`), phone (`telefono`) and e-mail (`email`).
Each edit is validated field by field. Submitting passes two local gates
(all fields filled, no recorded error) before the form and the QR code are
sent to the service. A `"success"` status shows the success panel and
empties the form.

Files:

- `validation.dfy` (module `Validation`): `validateField` as a pure
  function `ValidateField(name, value)`, with the digit scans behind its two
  regular expressions (`ContainsDigit` for `/\d/`, `AllDigits` for `/^\d*$/`).
  Its contract characterises every rule and the message each one reports:
  names reject exactly the values holding a digit; a phone is accepted
  exactly when empty or ten digits starting with `3`, and each of its three
  messages is given exactly when its rule is the first one to fail; an
  e-mail is rejected exactly when non-empty and missing `@` or `.`; any other
  field name is accepted.
- `gateway.dfy` (module `Gateway`): the shapes exchanged with the remote
  service: an `Option`, one QR verification (`QrCheck`), and the registration
  reply (`status`, optional `message`).
- `app.dfy` (module `App`): the form record (`FormData`), the two submit
  gates (`Incomplete`, `HasRecordedError`), the reference reading of "may be
  sent" (`CompleteAndValid`), the view selection (`ViewOf`, with the moves
  between views in `Step`), and the class `FormPage` holding the component
  state (`formData`, `errors`, `qrCode`, `qrValido`, `verificandoQR`,
  `isSubmitting`, `showSuccess`). Its methods are the load-time effect
  (`Load`), `handleChange` (`Change`) and `handleSubmit` (`Submit`, whose
  steps after the gates are `Register`).

The two calls to the service are not modelled as code. Their answers are
parameters: `Load` gets the verifier's `activo` answer, and `Submit` gets the
registration reply it would receive. Two ghost logs record the calls that the
handlers make: `qrChecks` for QR verifications and `submissions` for
registration requests. So "no call unless the gate passes" is a statement
about how `submissions` changes.

The class invariant `FormPage.Valid()` holds after the constructor and is
kept by every handler. So after any sequence of handler calls:

- every recorded error equals `ValidateField` of the field's current value,
  and every filled field has a recorded error (`Tracked`);
- `isSubmitting` is false between handlers;
- the success panel is shown only after the QR gate passed;
- every registration request carried a complete, valid form and a QR code
  that the verifier reported active.

`GateAcceptsExactlyValidForms` proves that, while the errors track the form,
the two gates of `handleSubmit` let a form through exactly when all four
fields are filled and valid.

## Model

| member | source | states |
|---|---|---|
| `Validation.ContainsDigit` | src/App.jsx:45 | `/\d/.test(value)` holds exactly when some character of the value is one of `'0'..'9'` |
| `Validation.AllDigits` | src/App.jsx:54 | `/^\d*$/.test(value)` holds exactly when every character is a digit, so the empty value passes |
| `Validation.ValidateField` | src/App.jsx:40-65 | a name gets an error exactly when it contains a digit, and that error is "No se permiten números"; a phone gets no error exactly when it is empty or ten digits starting with 3; a non-empty phone not starting with 3 always gets "Debe comenzar con 3"; one starting with 3 with length other than 10 gets "Debe tener 10 dígitos"; a phone gets "Solo números" exactly when it has ten characters, starts with 3 and holds a non-digit; an e-mail gets an error exactly when non-empty and missing `@` or `.`, and that error is "Debe contener @ y ."; any other name gets no error; the result is one of the five messages or empty |
| `Validation.EmptyValueAccepted` | src/App.jsx:40-65 | the empty value gets no error, whatever the field name |
| `Validation.PhoneSamples` | src/App.jsx:49-56 | one sample phone value per outcome: accepted, "Debe comenzar con 3", "Debe tener 10 dígitos", "Solo números" |
| `Validation.EmailAndNameSamples` | src/App.jsx:43-62 | sample e-mails with and without `@` or `.`, and a name holding a digit, get the expected verdicts |
| `App.Key` | src/App.jsx:193-253 | the `name` attribute of each of the four inputs is one of the four field names that the validator knows |
| `App.KeyInjective` | src/App.jsx:193-253 | the four inputs carry four different `name` attributes, so `{ ...formData, [name]: value }` updates a property no other input writes |
| `App.Present` | src/App.jsx:25 | `!qr` holds exactly for an absent (`null`) code and for the empty string |
| `App.Incomplete` | src/App.jsx:82 | the first gate blocks exactly when some one of the four fields is empty |
| `App.HasRecordedError` | src/App.jsx:87 | `Object.values(errors).some(error => error)` holds exactly when some field has a non-empty recorded error |
| `App.SubmitOutcome.Alert` | src/App.jsx:81-104 | every outcome except a registration raises an alert; the two gates alert "Por favor completa todos los campos" and "Por favor corrige los errores antes de continuar" (src/App.jsx:83, 88), and a refused registration alerts its message (src/App.jsx:102) |
| `App.Step` | src/App.jsx:107-170 | the moves between views never go back: Verifying is left for good, Invalid is a dead end, and the success panel is reached only from the form |
| `App.FormData.Set` | src/App.jsx:69-72 | `{ ...formData, [name]: value }` sets the named field and leaves the other three unchanged |
| `App.GateAcceptsExactlyValidForms` | src/App.jsx:82-90 | while the error map tracks the form, the emptiness gate and the error gate together pass exactly the forms whose four fields are filled and valid |
| `App.ChangeKeepsTracked` | src/App.jsx:67-79 | storing a value and its validation error keeps every recorded error equal to the validator's verdict on the current value |
| `App.ResetKeepsTracked` | src/App.jsx:87-100 | resetting the form to empty values after the gates passed keeps the error map consistent with the form, because no recorded error is non-empty and every rule accepts the empty value |
| `App.FailureAlert` | src/App.jsx:102 | the alert for a refused registration is never empty: it is the returned message when present and non-empty, and otherwise "Error al registrar. Intenta nuevamente." |
| `App.ViewOf` | src/App.jsx:106-170 | the rendered view has priority verifying > invalid > form card, and the card shows the success panel exactly when `showSuccess` is set |
| `App.FormPage.constructor` | src/App.jsx:6-18 | the component starts with an empty form, no errors, no QR code, `qrValido` false, `verificandoQR` true, not submitting, no success panel: the Verifying view |
| `App.FormPage.Load` | src/App.jsx:21-38 | an absent or empty `qr` makes no verification call and ends invalid; otherwise it stores the code, makes one verification call and `qrValido` equals the `activo` answer; both paths end with `verificandoQR` false, moving from Verifying to Invalid or to the form |
| `App.FormPage.Change` | src/App.jsx:67-79 | sets one field to the new value and its error entry to `ValidateField` of that value, leaves every other field, every other error entry and the view unchanged, and keeps the invariant |
| `App.FormPage.Submit` | src/App.jsx:81-104 | an empty field, or else a non-empty recorded error, blocks with the matching alert, changes no state and makes no call; otherwise exactly one request with the current form and QR code is sent; a `"success"` status shows success and empties the form; any other status keeps the form and alerts `FailureAlert` of the message; `isSubmitting` ends false and the view moves only from the form to the success panel |
| `App.FormPage.Register` | src/App.jsx:92-103 | after the gates: records one request with the form and QR code, ends with `isSubmitting` false, and on `"success"` shows the success panel with an empty form, otherwise keeps the form and returns the fallback-or-message alert |

## Left out

- The gateway module `src/utils/qrValidator.js` (reading the `qr` URL parameter, the HTTP `fetch` calls and their JSON encoding, `console.error` logging) is not part of this model. Its answers are parameters. Its catch blocks turn every transport failure into an ordinary reply, so the model assumes that neither call throws.
- JSX markup, styling, icons and spinners are left out. Only the choice of view (`ViewOf`) is modelled. `alert()` dialogs are modelled as the alert carried by `SubmitOutcome`.
- React scheduling is left out. Each handler runs atomically. This leaves out the stale `...formData` / `...errors` closures, the intermediate `isSubmitting == true` state while the request is pending, and edits made during that wait.
- Double-submit protection is left out. It lives only in the button's `disabled={isSubmitting}` attribute (src/App.jsx:267), not in `handleSubmit`.
- App.FormPage.Change: takes one of the four form fields, not an arbitrary property name. Its only callers are the four inputs, whose `name` attributes are the four field names (src/App.jsx:193, 213, 233, 253). So the JavaScript ability to add any other property is not modelled.
- App.FormPage.Submit: requires the form view. The submit button exists only there (src/App.jsx:170, 266).
- App.FormPage.Load: requires the Verifying state. The effect runs once, right after the first render.
- Lengths are counted in characters, as `value.length` counts UTF-16 code units. The two agree except on characters outside the Basic Multilingual Plane.
- A registration reply without a `status` is modelled as a status string other than `"success"`.

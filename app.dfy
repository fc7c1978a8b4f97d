/** The form controller of the `App` component: the form record and its
    error map, the submit gate, the load-time QR gate and the choice of the
    rendered view. Each handler runs atomically. */
module App {
  import opened Validation
  import opened Gateway

  const MissingFieldsAlert := "Por favor completa todos los campos"
  const FieldErrorsAlert := "Por favor corrige los errores antes de continuar"
  const RegisterFallback := "Error al registrar. Intenta nuevamente."

  /** The four inputs of the form. */
  datatype Field = Nombre | Apellido | Telefono | Email

  /** The `name` attribute of each input, which `handleChange` passes to `validateField`. */
  function Key(f: Field): (name: string)
    ensures IsKnownField(name)
  {
    match f
    case Nombre => "nombre"
    case Apellido => "apellido"
    case Telefono => "telefono"
    case Email => "email"
  }

  /** The four inputs have four different names, so each edit reaches one field of its own. */
  lemma KeyInjective(f: Field, g: Field)
    ensures Key(f) == Key(g) ==> f == g
  {
  }

  /** The form record `formData`. */
  datatype FormData = FormData(nombre: string, apellido: string, telefono: string, email: string) {
    function Get(f: Field): string {
      match f
      case Nombre => nombre
      case Apellido => apellido
      case Telefono => telefono
      case Email => email
    }

    /** `{ ...formData, [name]: value }` */
    function Set(f: Field, value: string): (r: FormData)
      ensures r.Get(f) == value
      ensures forall g :: g != f ==> r.Get(g) == Get(g)
    {
      match f
      case Nombre => this.(nombre := value)
      case Apellido => this.(apellido := value)
      case Telefono => this.(telefono := value)
      case Email => this.(email := value)
    }
  }

  /** The form record the component starts with and resets to. */
  const EmptyForm := FormData("", "", "", "")

  /** The QR code taken from the page URL is usable: present and non-empty. */
  predicate Present(qr: Option<string>)
    // `!qr` is true exactly for null and for the empty string
    ensures !Present(qr) <==> qr == None || qr == Some("")
  {
    qr.Some? && qr.value != ""
  }

  /** First gate of `handleSubmit`: one of the four fields is empty. */
  predicate Incomplete(form: FormData)
    ensures Incomplete(form) <==> exists f: Field :: form.Get(f) == ""
  {
    var empty := form.nombre == "" || form.apellido == "" || form.telefono == "" || form.email == "";
    assert forall f: Field :: form.Get(f) == "" ==> empty;
    assert empty ==> form.Get(Nombre) == "" || form.Get(Apellido) == "" ||
                     form.Get(Telefono) == "" || form.Get(Email) == "";
    empty
  }

  /** Second gate of `handleSubmit`: `Object.values(errors).some(error => error)`,
      that is, some field has a non-empty recorded error message. */
  predicate HasRecordedError(errors: map<Field, string>)
    ensures HasRecordedError(errors) <==> exists f :: f in errors && errors[f] != ""
  {
    var found := exists e :: e in errors.Values && e != "";
    assert found ==> exists f :: f in errors && errors[f] != "";
    assert forall f :: f in errors ==> errors[f] in errors.Values;
    found
  }

  /** The independent reading of "the form may be sent": every field filled and valid. */
  predicate CompleteAndValid(form: FormData) {
    forall f: Field :: form.Get(f) != "" && ValidateField(Key(f), form.Get(f)) == ""
  }

  /** The error map agrees with the form: each recorded error is the validator's
      verdict on the current value, and every filled field has a recorded error. */
  predicate Tracked(form: FormData, errors: map<Field, string>) {
    (forall f :: f in errors ==> errors[f] == ValidateField(Key(f), form.Get(f))) &&
    (forall f :: form.Get(f) != "" ==> f in errors)
  }

  /** While the error map tracks the form, the two gates of `handleSubmit`
      together let a form through exactly when it is complete and valid. */
  lemma GateAcceptsExactlyValidForms(form: FormData, errors: map<Field, string>)
    requires Tracked(form, errors)
    ensures (!Incomplete(form) && !HasRecordedError(errors)) <==> CompleteAndValid(form)
  {
  }

  /** `handleChange` keeps the error map in step with the form. */
  lemma ChangeKeepsTracked(form: FormData, errors: map<Field, string>, f: Field, value: string)
    requires Tracked(form, errors)
    ensures Tracked(form.Set(f, value), errors[f := ValidateField(Key(f), value)])
  {
    var form', errors' := form.Set(f, value), errors[f := ValidateField(Key(f), value)];
    forall g | g in errors' ensures errors'[g] == ValidateField(Key(g), form'.Get(g)) {
      if g != f {
        assert form'.Get(g) == form.Get(g);
      }
    }
  }

  /** Resetting the form after a successful registration keeps the error map in
      step, because the gate let through only an error map with no message. */
  lemma ResetKeepsTracked(errors: map<Field, string>)
    requires !HasRecordedError(errors)
    ensures Tracked(EmptyForm, errors)
  {
  }

  /** `resultado.message || fallback`: the alert shown for a refused registration. */
  function FailureAlert(message: Option<string>): (text: string)
    ensures text != ""
    ensures message.Some? && message.value != "" ==> text == message.value
    ensures message.None? || message.value == "" ==> text == RegisterFallback
  {
    if message.Some? && message.value != "" then message.value else RegisterFallback
  }

  /** The screens the component renders. */
  datatype View = Verifying | Invalid | FormView | SuccessView

  /** The view chosen from the state flags: verifying before invalid before the form
      card, which shows the success panel once a registration went through. */
  function ViewOf(verificandoQR: bool, qrValido: bool, showSuccess: bool): (v: View)
    ensures v == Verifying <==> verificandoQR
    ensures v == Invalid <==> !verificandoQR && !qrValido
    ensures v == FormView <==> !verificandoQR && qrValido && !showSuccess
    ensures v == SuccessView <==> !verificandoQR && qrValido && showSuccess
  {
    if verificandoQR then Verifying
    else if !qrValido then Invalid
    else if showSuccess then SuccessView
    else FormView
  }

  /** The allowed moves of the page: Verifying leads to Invalid or to the form,
      the form leads to the success panel, and nothing leads back. */
  predicate Step(v: View, w: View)
    ensures Step(v, w) ==> Stage(v) <= Stage(w) && (Stage(v) == Stage(w) ==> v == w)
    ensures Step(v, w) && w == SuccessView ==> v == FormView || v == SuccessView
    ensures Step(v, w) && v == Invalid ==> w == Invalid
    ensures Step(v, w) && v != Verifying ==> w != Verifying
  {
    v == w ||
    (v == Verifying && (w == Invalid || w == FormView)) ||
    (v == FormView && w == SuccessView)
  }

  /** How far along the page is: every move of `Step` goes forward or stays. */
  function Stage(v: View): nat {
    match v
    case Verifying => 0
    case Invalid => 1
    case FormView => 1
    case SuccessView => 2
  }

  /** A registration request carried a complete, valid form and a QR code
      the verifier reported active. */
  ghost predicate SentOk(r: Registration, qrChecks: seq<QrCheck>) {
    CompleteAndValid(r.form) && r.qr.Some? && QrCheck(r.qr.value, true) in qrChecks
  }

  /** One call to `enviarDatosGanador`: the form record and the QR code sent. */
  datatype Registration = Registration(form: FormData, qr: Option<string>)

  /** What `handleSubmit` did, and the alert it raised if any. */
  datatype SubmitOutcome = MissingFields | FieldErrors | Registered | Rejected(alert: string) {
    /** The `alert()` the handler raised, if any. */
    function Alert(): (text: Option<string>)
      ensures text.None? <==> Registered?
      ensures Rejected? ==> text == Some(alert)
      ensures MissingFields? ==> text == Some(MissingFieldsAlert)
      ensures FieldErrors? ==> text == Some(FieldErrorsAlert)
    {
      match this
      case MissingFields => Some(MissingFieldsAlert)
      case FieldErrors => Some(FieldErrorsAlert)
      case Registered => None
      case Rejected(text) => Some(text)
    }
  }

  /** The state of one `App` component. */
  class FormPage {
    var formData: FormData
    var errors: map<Field, string>
    var qrCode: Option<string>
    var qrValido: bool
    var verificandoQR: bool
    var isSubmitting: bool
    var showSuccess: bool
    /** The calls made to the QR verifier, in order. */
    ghost var qrChecks: seq<QrCheck>
    /** The registration requests sent to the gateway, in order. */
    ghost var submissions: seq<Registration>

    ghost predicate Valid()
      reads this
    {
      !isSubmitting &&
      Tracked(formData, errors) &&
      (showSuccess ==> !verificandoQR && qrValido) &&
      (qrValido ==> qrCode.Some? && QrCheck(qrCode.value, true) in qrChecks) &&
      (forall r :: r in submissions ==> SentOk(r, qrChecks))
    }

    function View(): View
      reads this
    {
      ViewOf(verificandoQR, qrValido, showSuccess)
    }

    /** The component's initial state: empty form, no errors, verifying the QR code. */
    constructor ()
      ensures Valid()
      ensures formData == EmptyForm && errors == map[]
      ensures qrCode == None && !qrValido && verificandoQR
      ensures !isSubmitting && !showSuccess
      ensures qrChecks == [] && submissions == []
      ensures View() == Verifying
    {
      formData := EmptyForm;
      errors := map[];
      qrCode := None;
      qrValido := false;
      verificandoQR := true;
      isSubmitting := false;
      showSuccess := false;
      qrChecks := [];
      submissions := [];
    }

    /** The load-time effect: read the `qr` parameter and, when it is usable, ask the
        verifier, whose `activo` answer is `activo`. It runs once, while verifying. */
    method Load(qr: Option<string>, activo: bool)
      requires Valid() && verificandoQR
      modifies this`qrCode, this`qrValido, this`verificandoQR, this`qrChecks
      ensures Valid()
      ensures !verificandoQR
      ensures qrValido == (Present(qr) && activo)
      ensures qrCode == if Present(qr) then qr else old(qrCode)
      ensures qrChecks == if Present(qr) then old(qrChecks) + [QrCheck(qr.value, activo)] else old(qrChecks)
      ensures View() == if qrValido then FormView else Invalid
      ensures Step(old(View()), View())
    {
      if !Present(qr) {
        qrValido := false;
        verificandoQR := false;
        return;
      }
      qrCode := qr;
      qrChecks := qrChecks + [QrCheck(qr.value, activo)];
      qrValido := activo;
      verificandoQR := false;
    }

    /** `handleChange`: store the new value of one field and its validation error. */
    method Change(f: Field, value: string)
      requires Valid()
      modifies this`formData, this`errors
      ensures Valid()
      ensures formData.Get(f) == value
      ensures forall g :: g != f ==> formData.Get(g) == old(formData).Get(g)
      ensures errors == old(errors)[f := ValidateField(Key(f), value)]
      ensures View() == old(View())
    {
      ChangeKeepsTracked(formData, errors, f, value);
      formData := formData.Set(f, value);
      errors := errors[f := ValidateField(Key(f), value)];
    }

    /** `handleSubmit`, with `reply` standing for the gateway's answer should it be asked. */
    method Submit(reply: RegistrationReply) returns (outcome: SubmitOutcome)
      requires Valid() && View() == FormView
      modifies this`formData, this`isSubmitting, this`showSuccess, this`submissions
      ensures Valid()
      // the two gates: no request, no change
      ensures Incomplete(old(formData)) ==>
        outcome == MissingFields && unchanged(this)
      ensures !Incomplete(old(formData)) && HasRecordedError(errors) ==>
        outcome == FieldErrors && unchanged(this)
      // a request goes out exactly when the form is complete and valid
      ensures CompleteAndValid(old(formData)) <==> outcome == Registered || outcome.Rejected?
      ensures submissions ==
        if CompleteAndValid(old(formData)) then old(submissions) + [Registration(old(formData), qrCode)]
        else old(submissions)
      ensures outcome == Registered ==>
        reply.status == Success && showSuccess && formData == EmptyForm
      ensures outcome.Rejected? ==>
        reply.status != Success && outcome.alert == FailureAlert(reply.message) &&
        formData == old(formData) && showSuccess == old(showSuccess)
      ensures CompleteAndValid(old(formData)) ==> (outcome == Registered <==> reply.status == Success)
      ensures !isSubmitting
      ensures Step(old(View()), View())
    {
      GateAcceptsExactlyValidForms(formData, errors);
      if Incomplete(formData) {
        return MissingFields;
      }
      if HasRecordedError(errors) {
        return FieldErrors;
      }
      outcome := Register(reply);
    }

    /** Steps 3 to 5 of `handleSubmit`, once both gates have passed: send the form
        and the QR code, then show success and reset the form, or keep it and alert. */
    method Register(reply: RegistrationReply) returns (outcome: SubmitOutcome)
      requires Valid() && View() == FormView
      requires CompleteAndValid(formData) && !HasRecordedError(errors)
      modifies this`formData, this`isSubmitting, this`showSuccess, this`submissions
      ensures Valid()
      ensures submissions == old(submissions) + [Registration(old(formData), qrCode)]
      ensures reply.status == Success ==>
        outcome == Registered && showSuccess && formData == EmptyForm
      ensures reply.status != Success ==>
        outcome == Rejected(FailureAlert(reply.message)) &&
        formData == old(formData) && showSuccess == old(showSuccess)
      ensures !isSubmitting
      ensures View() == if reply.status == Success then SuccessView else FormView
    {
      ghost var sent := Registration(formData, qrCode);
      assert SentOk(sent, qrChecks);
      isSubmitting := true;
      submissions := submissions + [sent];
      isSubmitting := false;
      if reply.status == Success {
        ResetKeepsTracked(errors);
        showSuccess := true;
        formData := EmptyForm;
        outcome := Registered;
      } else {
        outcome := Rejected(FailureAlert(reply.message));
      }
    }
  }
}

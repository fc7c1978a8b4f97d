/** Per-field validation of the prize-claim form (`validateField`).
    A value is a string of characters; a field name is a string too, and
    names other than the four form fields are accepted without an error. */
module Validation {

  const NoNumbers := "No se permiten números"
  const MustStartWith3 := "Debe comenzar con 3"
  const MustHave10Digits := "Debe tener 10 dígitos"
  const OnlyNumbers := "Solo números"
  const MustHaveAtAndDot := "Debe contener @ y ."

  /** `\d` in a regular expression without the `u` flag: the ASCII digits. */
  predicate IsDigit(c: char) {
    '0' <= c <= '9'
  }

  /** `/\d/.test(s)`: some character of `s` is a digit. */
  function ContainsDigit(s: string): (r: bool)
    ensures r <==> exists i :: 0 <= i < |s| && IsDigit(s[i])
  {
    if s == [] then false
    else if IsDigit(s[0]) then true
    else
      var rest := ContainsDigit(s[1..]);
      assert forall i :: 0 < i < |s| ==> s[i] == s[1..][i - 1];
      assert rest ==> exists i :: 0 <= i < |s| - 1 && IsDigit(s[1..][i]);
      rest
  }

  /** `/^\d*$/.test(s)`: every character of `s` is a digit (the empty string passes). */
  function AllDigits(s: string): (r: bool)
    ensures r <==> forall i :: 0 <= i < |s| ==> IsDigit(s[i])
  {
    if s == [] then true
    else if !IsDigit(s[0]) then false
    else
      var rest := AllDigits(s[1..]);
      assert forall i :: 0 < i < |s| ==> s[i] == s[1..][i - 1];
      assert !rest ==> exists i :: 0 <= i < |s| - 1 && !IsDigit(s[1..][i]);
      rest
  }

  predicate IsNameField(name: string) {
    name == "nombre" || name == "apellido"
  }

  predicate IsKnownField(name: string) {
    IsNameField(name) || name == "telefono" || name == "email"
  }

  /** The error message for `value` typed into the field `name`; "" means valid.
      The phone rules are tried in order and the first failing one is reported. */
  function ValidateField(name: string, value: string): (error: string)
    ensures error in {"", NoNumbers, MustStartWith3, MustHave10Digits, OnlyNumbers, MustHaveAtAndDot}
    // first and last name: an error exactly when a digit occurs
    ensures IsNameField(name) ==>
      (error != "" <==> exists i :: 0 <= i < |value| && IsDigit(value[i]))
    ensures IsNameField(name) && error != "" ==> error == NoNumbers
    // phone: valid exactly when empty, or ten digits starting with 3
    ensures name == "telefono" ==>
      (error == "" <==>
        value == "" ||
        (value[0] == '3' && |value| == 10 && forall i :: 0 <= i < |value| ==> IsDigit(value[i])))
    ensures name == "telefono" && value != "" && value[0] != '3' ==> error == MustStartWith3
    ensures name == "telefono" && value != "" && value[0] == '3' && |value| != 10 ==>
      error == MustHave10Digits
    ensures name == "telefono" ==>
      (error == OnlyNumbers <==>
        |value| == 10 && value[0] == '3' && exists i :: 0 <= i < |value| && !IsDigit(value[i]))
    // email: an error exactly when non-empty and missing '@' or '.'
    ensures name == "email" ==>
      (error != "" <==> value != "" && ('@' !in value || '.' !in value))
    ensures name == "email" && error != "" ==> error == MustHaveAtAndDot
    // any other name
    ensures !IsKnownField(name) ==> error == ""
  {
    if IsNameField(name) then
      if ContainsDigit(value) then NoNumbers else ""
    else if name == "telefono" then
      if value != "" && value[0] != '3' then MustStartWith3
      else if value != "" && |value| != 10 then MustHave10Digits
      else if !AllDigits(value) then OnlyNumbers
      else ""
    else if name == "email" then
      if value != "" && ('@' !in value || '.' !in value) then MustHaveAtAndDot else ""
    else ""
  }

  /** Every rule accepts the empty value, whatever the field. */
  lemma EmptyValueAccepted(name: string)
    ensures ValidateField(name, "") == ""
  {
  }

  /** Sample verdicts for phone values: one per rule, in rule order. */
  lemma PhoneSamples()
    ensures ValidateField("telefono", "3123456789") == ""
    ensures ValidateField("telefono", "2123456789") == MustStartWith3
    ensures ValidateField("telefono", "31234") == MustHave10Digits
    ensures ValidateField("telefono", "31234567a9") == OnlyNumbers
  {
    var ok := "3123456789";
    assert forall i :: 0 <= i < |ok| ==> IsDigit(ok[i]);
    var bad := "31234567a9";
    assert !IsDigit(bad[8]);
  }

  /** Sample verdicts for e-mail and name values. */
  lemma EmailAndNameSamples()
    ensures ValidateField("email", "a@b.com") == ""
    ensures ValidateField("email", "ab.com") == MustHaveAtAndDot
    ensures ValidateField("email", "a@bcom") == MustHaveAtAndDot
    ensures ValidateField("nombre", "Ana3") == NoNumbers
  {
  }
}

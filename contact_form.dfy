/** The contact page of `scripts/contacto.js`: the rule table of
    `initializeValidation`, `validateField`, `validateForm`, the phone
    input formatter, `formatPhoneNumber`, `sanitizeInput`, and the
    `formSubmitted` guard against a second submission. */
module ContactForm {
  import opened Wrappers
  import opened JsText

  /** The regular expressions of the rule table. */
  datatype Pattern = NoPattern | NamePattern | EmailPattern | PhonePattern

  datatype Rule = Rule(required: bool, minLength: nat, maxLength: nat, pattern: Pattern, message: string)

  /** A form control as `validateField` sees it. */
  datatype Field = Field(name: string, value: string, isCheckbox: bool, checked: bool)

  /** What `validateField` reports: valid, or the error message it shows. */
  datatype Verdict = Valid | Invalid(message: string)

  const NameMessage: string := "Ingresa un nombre válido (solo letras y espacios)"
  const EmailMessage: string := "Ingresa un email válido"
  const PhoneMessage: string := "Ingresa un teléfono válido"
  const KindMessage: string := "Selecciona el tipo de consulta"
  const TextMessage: string := "El mensaje debe tener entre 10 y 1000 caracteres"
  const PrivacyMessage: string := "Debes aceptar la política de privacidad"

  /** `validationRules[name]`; a length of 0 stands for an absent
      `minLength` or `maxLength`, which the script's truthiness test skips. */
  function RuleFor(name: string): (r: Option<Rule>)
    ensures r.Some? <==> name in {"nombre", "email", "telefono", "consulta-tipo", "mensaje", "privacy"}
    ensures r.Some? ==> r.value.required
  {
    if name == "nombre" then Some(Rule(true, 2, 0, NamePattern, NameMessage))
    else if name == "email" then Some(Rule(true, 0, 0, EmailPattern, EmailMessage))
    else if name == "telefono" then Some(Rule(true, 8, 0, PhonePattern, PhoneMessage))
    else if name == "consulta-tipo" then Some(Rule(true, 0, 0, NoPattern, KindMessage))
    else if name == "mensaje" then Some(Rule(true, 10, 1000, NoPattern, TextMessage))
    else if name == "privacy" then Some(Rule(true, 0, 0, NoPattern, PrivacyMessage))
    else None
  }

  /** `[a-zA-ZáéíóúÁÉÍÓÚñÑ\s]` */
  predicate NameChar(c: char) {
    ('a' <= c <= 'z') || ('A' <= c <= 'Z') || c in "áéíóúÁÉÍÓÚñÑ" || IsWhitespace(c)
  }

  /** `[\d\s\-\+\(\)]` */
  predicate PhoneChar(c: char) {
    IsDigit(c) || IsWhitespace(c) || c in "-+()"
  }

  /** `[^\s@]` */
  predicate PlainChar(c: char) {
    !IsWhitespace(c) && c != '@'
  }

  predicate AllPlain(s: string) {
    forall k :: 0 <= k < |s| ==> PlainChar(s[k])
  }

  /** The domain part `[^\s@]+\.[^\s@]+`: plain characters with a '.'
      that is neither first nor last. */
  predicate DomainOk(d: string) {
    AllPlain(d) && exists j :: 0 < j < |d| - 1 && d[j] == '.'
  }

  /** `/^[^\s@]+@[^\s@]+\.[^\s@]+$/.test(s)` */
  predicate EmailOk(s: string) {
    exists i :: 0 < i < |s| && s[i] == '@' && AllPlain(s[..i]) && DomainOk(s[i + 1..])
  }

  /** The test a pattern makes of the whole trimmed value. */
  predicate Matches(p: Pattern, s: string) {
    match p
    case NoPattern => true
    case NamePattern => |s| > 0 && forall k :: 0 <= k < |s| ==> NameChar(s[k])
    case PhonePattern => |s| > 0 && forall k :: 0 <= k < |s| ==> PhoneChar(s[k])
    case EmailPattern => EmailOk(s)
  }

  /** A valid address has exactly one '@', with text on both sides. */
  lemma EmailHasOneAt(s: string)
    requires EmailOk(s)
    ensures exists i :: 0 < i < |s| - 1 && s[i] == '@' && forall k :: 0 <= k < |s| && k != i ==> s[k] != '@'
  {
    var i :| 0 < i < |s| && s[i] == '@' && AllPlain(s[..i]) && DomainOk(s[i + 1..]);
    forall k | 0 <= k < |s| && k != i ensures s[k] != '@' {
      if k < i {
        assert s[..i][k] == s[k];
      } else {
        assert s[i + 1..][k - i - 1] == s[k];
      }
    }
  }

  /** `validateField(field)`: fields without a rule are valid; otherwise,
      on the trimmed value and stopping at the first failure, the required
      test, the pattern, the minimum and the maximum length. The required
      test of a checkbox runs only when its value is empty, and then only
      fails when it is unchecked. */
  function ValidateField(field: Field): (r: Verdict)
    ensures RuleFor(field.name).None? ==> r == Valid
    ensures r.Valid? && RuleFor(field.name).Some? && !field.isCheckbox ==>
      var v := Trim(field.value);
      var rule := RuleFor(field.name).value;
      v != "" && Matches(rule.pattern, v) && (rule.minLength == 0 || |v| >= rule.minLength)
      && (rule.maxLength == 0 || |v| <= rule.maxLength)
  {
    match RuleFor(field.name)
    case None => Valid
    case Some(rule) =>
      var value := Trim(field.value);
      if rule.required && value == "" && field.isCheckbox && !field.checked then Invalid(rule.message)
      else if rule.required && value == "" && !field.isCheckbox then Invalid(rule.message)
      else if value == "" && !rule.required then Valid
      else if !Matches(rule.pattern, value) then Invalid(rule.message)
      else if rule.minLength != 0 && |value| < rule.minLength then Invalid("Mínimo " + NatToString(rule.minLength) + " caracteres")
      else if rule.maxLength != 0 && |value| > rule.maxLength then Invalid("Máximo " + NatToString(rule.maxLength) + " caracteres")
      else Valid
  }

  /** For a field with a rule that is not a checkbox, `validateField`
      passes exactly when the trimmed value is non-empty, matches the
      pattern and respects both lengths. */
  lemma ValidIff(field: Field)
    requires RuleFor(field.name).Some? && !field.isCheckbox
    ensures var v := Trim(field.value);
      var rule := RuleFor(field.name).value;
      ValidateField(field).Valid? <==>
        v != "" && Matches(rule.pattern, v) && (rule.minLength == 0 || |v| >= rule.minLength)
        && (rule.maxLength == 0 || |v| <= rule.maxLength)
  {
  }

  /** The message is valid exactly when its trimmed length lies between 10
      and 1000. */
  lemma MessageLength(text: string)
    ensures ValidateField(Field("mensaje", text, false, false)).Valid? <==> 10 <= |Trim(text)| <= 1000
  {
  }

  /** A phone number is valid exactly when its trimmed value holds only
      digits, white space and `-+()`, at least 8 of them. */
  lemma PhoneRule(text: string)
    ensures ValidateField(Field("telefono", text, false, false)).Valid? <==>
      |Trim(text)| >= 8 && forall k :: 0 <= k < |Trim(text)| ==> PhoneChar(Trim(text)[k])
  {
    var f := Field("telefono", text, false, false);
    assert RuleFor(f.name) == Some(Rule(true, 8, 0, PhonePattern, PhoneMessage));
    ValidIff(f);
  }

  /** A name is valid exactly when it holds only letters (with the accented
      vowels and ñ) and white space, at least 2 characters once trimmed. */
  lemma NameRule(text: string)
    ensures ValidateField(Field("nombre", text, false, false)).Valid? <==>
      |Trim(text)| >= 2 && forall k :: 0 <= k < |Trim(text)| ==> NameChar(Trim(text)[k])
  {
    var f := Field("nombre", text, false, false);
    assert RuleFor(f.name) == Some(Rule(true, 2, 0, NamePattern, NameMessage));
    ValidIff(f);
  }

  /** An address is valid exactly when the trimmed value matches the
      pattern. */
  lemma EmailRule(text: string)
    ensures ValidateField(Field("email", text, false, false)).Valid? <==> EmailOk(Trim(text))
  {
    var f := Field("email", text, false, false);
    assert RuleFor(f.name) == Some(Rule(true, 0, 0, EmailPattern, EmailMessage));
    ValidIff(f);
    if EmailOk(Trim(text)) {
      var i :| 0 < i < |Trim(text)| && Trim(text)[i] == '@';
    }
  }

  /** The privacy checkbox submits the value "on": since the required test
      of a checkbox only runs on an empty value, it passes unchecked. */
  lemma UncheckedPrivacyPasses()
    ensures ValidateField(Field("privacy", "on", true, false)) == Valid
  {
    assert Trim("on") == "on" by {
      TrimKeeps("on");
    }
  }

  /** An unchecked checkbox with an empty value fails with its message. */
  lemma EmptyUncheckedFails(name: string)
    requires RuleFor(name).Some?
    ensures ValidateField(Field(name, "", true, false)) == Invalid(RuleFor(name).value.message)
  {
    assert Trim("") == "";
  }

  /** `validateForm`: every required field is validated, without stopping
      at the first failure, and the form is valid when all of them are. */
  method ValidateForm(fields: seq<Field>) returns (isValid: bool)
    ensures isValid <==> forall k :: 0 <= k < |fields| ==> ValidateField(fields[k]).Valid?
  {
    isValid := true;
    var i := 0;
    while i < |fields|
      invariant 0 <= i <= |fields|
      invariant isValid <==> forall k :: 0 <= k < i ==> ValidateField(fields[k]).Valid?
    {
      if !ValidateField(fields[i]).Valid? {
        isValid := false;
      }
      i := i + 1;
    }
  }

  /** `s.replace(/\D/g, '')`: the digits, in order. */
  function Digits(s: string): (r: string)
    ensures |r| <= |s|
    ensures forall k :: 0 <= k < |r| ==> IsDigit(r[k])
  {
    if s == [] then []
    else (if IsDigit(s[0]) then [s[0]] else []) + Digits(s[1..])
  }

  predicate AllDigits(s: string) {
    forall k :: 0 <= k < |s| ==> IsDigit(s[k])
  }

  /** A string of digits is its own digits. */
  lemma {:induction false} DigitsOfDigits(s: string)
    requires AllDigits(s)
    ensures Digits(s) == s
    decreases |s|
  {
    if s != [] {
      DigitsOfDigits(s[1..]);
    }
  }

  /** The digits of a concatenation are the concatenated digits. */
  lemma {:induction false} DigitsAppend(a: string, b: string)
    ensures Digits(a + b) == Digits(a) + Digits(b)
    decreases |a|
  {
    if a == [] {
      assert a + b == b;
    } else {
      var head: string := if IsDigit(a[0]) then [a[0]] else [];
      assert (a + b)[0] == a[0];
      assert (a + b)[1..] == a[1..] + b;
      DigitsAppend(a[1..], b);
      assert Digits(a + b) == head + Digits(a[1..] + b);
      assert Digits(a) == head + Digits(a[1..]);
    }
  }

  /** A dash and a group of digits add just that group to the digits. */
  lemma DigitsDashed(a: string, b: string)
    requires AllDigits(b)
    ensures Digits(a + "-" + b) == Digits(a) + b
  {
    var dash: string := "-";
    DashHasNoDigits();
    DigitsAppend(a, dash);
    assert Digits(a + dash) == Digits(a);
    DigitsAppend(a + dash, b);
    DigitsOfDigits(b);
  }

  lemma DashHasNoDigits()
    ensures Digits("-") == []
  {
    var dash: string := "-";
    assert !IsDigit(dash[0]) && dash[1..] == [];
  }

  /** The phone input handler: the first ten digits, grouped 3-3-4 with
      dashes only between groups that are present. */
  function FormatPhoneInput(value: string): (r: string)
    ensures |r| <= 12
  {
    var d := Digits(value);
    if |d| <= 3 then d
    else if |d| <= 6 then d[..3] + "-" + d[3..]
    else if |d| <= 10 then d[..3] + "-" + d[3..6] + "-" + d[6..]
    else d[..3] + "-" + d[3..6] + "-" + d[6..10]
  }

  /** Removing the dashes from the formatted input gives the first ten
      (or fewer) digits of what was typed. */
  lemma FormatPhoneInputDigits(value: string)
    ensures var d := Digits(value);
      Digits(FormatPhoneInput(value)) == if |d| <= 10 then d else d[..10]
  {
    var d := Digits(value);
    if |d| <= 3 {
      DigitsOfDigits(d);
    } else if |d| <= 6 {
      TwoGroupsDigits(d);
    } else {
      var e := if |d| <= 10 then d else d[..10];
      assert e[..3] == d[..3] && e[3..6] == d[3..6];
      assert |d| > 10 ==> e[6..] == d[6..10];
      ThreeGroupsDigits(e);
    }
  }

  /** Digits split 3 + the rest, with a dash between. */
  lemma TwoGroupsDigits(d: string)
    requires AllDigits(d) && |d| > 3
    ensures Digits(d[..3] + "-" + d[3..]) == d
  {
    DigitsOfDigits(d[..3]);
    DigitsDashed(d[..3], d[3..]);
    assert d[..3] + d[3..] == d;
  }

  /** Digits split 3 + 3 + the rest, with dashes between. */
  lemma ThreeGroupsDigits(e: string)
    requires AllDigits(e) && |e| > 6
    ensures Digits(e[..3] + "-" + e[3..6] + "-" + e[6..]) == e
  {
    DigitsOfDigits(e[..3]);
    DigitsDashed(e[..3], e[3..6]);
    DigitsDashed(e[..3] + "-" + e[3..6], e[6..]);
    assert e[..3] + e[3..6] + e[6..] == e;
  }

  /** Typing into an already formatted field changes nothing: the
      formatter is idempotent. */
  lemma FormatPhoneInputIdempotent(value: string)
    ensures FormatPhoneInput(FormatPhoneInput(value)) == FormatPhoneInput(value)
  {
    FormatPhoneInputDigits(value);
  }

  /** `formatPhoneNumber(phone)`: ten digits as 3-3-4, eleven as 1-3-3-4,
      and anything else returned as it was given. */
  function FormatPhoneNumber(phone: string): (r: string)
    ensures |Digits(phone)| != 10 && |Digits(phone)| != 11 ==> r == phone
  {
    var d := Digits(phone);
    if |d| == 10 then d[..3] + "-" + d[3..6] + "-" + d[6..]
    else if |d| == 11 then d[..1] + "-" + d[1..4] + "-" + d[4..7] + "-" + d[7..]
    else phone
  }

  /** A formatted number keeps every digit, in order, and adds one dash
      between each pair of groups. */
  lemma FormatPhoneNumberShape(phone: string)
    requires |Digits(phone)| == 10 || |Digits(phone)| == 11
    ensures var r := FormatPhoneNumber(phone);
      Digits(r) == Digits(phone) && |r| == |Digits(phone)| + (if |Digits(phone)| == 10 then 2 else 3)
  {
    var d := Digits(phone);
    if |d| == 10 {
      Grouped334(d);
    } else {
      Grouped1334(d);
    }
  }

  lemma Grouped334(d: string)
    requires AllDigits(d) && |d| == 10
    ensures Digits(d[..3] + "-" + d[3..6] + "-" + d[6..]) == d
  {
    DigitsOfDigits(d[..3]);
    DigitsDashed(d[..3], d[3..6]);
    DigitsDashed(d[..3] + "-" + d[3..6], d[6..]);
    assert d[..3] + d[3..6] + d[6..] == d;
  }

  lemma Grouped1334(d: string)
    requires AllDigits(d) && |d| == 11
    ensures Digits(d[..1] + "-" + d[1..4] + "-" + d[4..7] + "-" + d[7..]) == d
  {
    DigitsOfDigits(d[..1]);
    DigitsDashed(d[..1], d[1..4]);
    DigitsDashed(d[..1] + "-" + d[1..4], d[4..7]);
    DigitsDashed(d[..1] + "-" + d[1..4] + "-" + d[4..7], d[7..]);
    assert d[..1] + d[1..4] + d[4..7] + d[7..] == d;
  }

  /** `s.replace(/[<>]/g, '')` */
  function DropAngles(s: string): (r: string)
    ensures |r| <= |s|
    ensures forall k :: 0 <= k < |r| ==> r[k] != '<' && r[k] != '>'
  {
    if s == [] then []
    else (if s[0] == '<' || s[0] == '>' then [] else [s[0]]) + DropAngles(s[1..])
  }

  /** Text without angle brackets is left as it is. */
  lemma {:induction false} DropAnglesKeeps(s: string)
    requires forall k :: 0 <= k < |s| ==> s[k] != '<' && s[k] != '>'
    ensures DropAngles(s) == s
    decreases |s|
  {
    if s != [] {
      DropAnglesKeeps(s[1..]);
    }
  }

  /** `sanitizeInput(input)`: trimmed, then every '<' and '>' removed. */
  function SanitizeInput(input: string): (r: string)
    ensures forall k :: 0 <= k < |r| ==> r[k] != '<' && r[k] != '>'
    ensures |r| <= |Trim(input)|
  {
    DropAngles(Trim(input))
  }

  /** Sanitising text that holds no brackets and no outer white space
      returns it unchanged. */
  lemma SanitizeKeepsPlainText(s: string)
    requires s != "" && !IsWhitespace(s[0]) && !IsWhitespace(s[|s| - 1])
    requires forall k :: 0 <= k < |s| ==> s[k] != '<' && s[k] != '>'
    ensures SanitizeInput(s) == s
  {
    TrimKeeps(s);
    DropAnglesKeeps(s);
  }

  /** The `formSubmitted` flag of the page. */
  class Page {
    var formSubmitted: bool

    constructor ()
      ensures !formSubmitted
    {
      formSubmitted := false;
    }

    /** `handleFormSubmit` up to the request: ignored while a submission
      is in progress, refused when the form is invalid, and otherwise
      marked as submitted and sent. */
    method HandleFormSubmit(fields: seq<Field>) returns (sent: bool)
      modifies this
      ensures old(formSubmitted) ==> !sent && formSubmitted
      ensures !old(formSubmitted) ==>
        (sent <==> forall k :: 0 <= k < |fields| ==> ValidateField(fields[k]).Valid?) && formSubmitted == sent
    {
      if formSubmitted {
        return false;
      }
      var ok := ValidateForm(fields);
      if !ok {
        return false;
      }
      formSubmitted := true;
      sent := true;
    }

    /** The timer that ends the five-second lock after a submission. */
    method Unlock()
      modifies this
      ensures !formSubmitted
    {
      formSubmitted := false;
    }
  }

  /** The same form submitted twice before the lock ends is sent at most
      once. */
  method SubmitTwice(p: Page, fields: seq<Field>) returns (first: bool, second: bool)
    modifies p
    ensures !second
  {
    first := p.HandleFormSubmit(fields);
    second := p.HandleFormSubmit(fields);
  }
}

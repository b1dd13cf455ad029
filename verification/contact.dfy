/**
 * The lead-capture form (src/components/ContactForm.tsx): five text fields,
 * a pure validator that builds a map of error messages, and the component
 * state that a field change, a submit and the deferred completion update.
 */
module Contact {
  import opened JsCore

  /** The `name` attributes of the form's five inputs. */
  datatype Field = Name | Email | Company | LicenseType | Message

  /** The fields the validator looks at; `Message` is never checked. */
  const Checked: set<Field> := {Name, Email, Company, LicenseType}

  datatype FormData = FormData(name: string, email: string, company: string,
                               licenseType: string, message: string)
  {
    function Get(f: Field): string {
      match f
      case Name => name
      case Email => email
      case Company => company
      case LicenseType => licenseType
      case Message => message
    }

    /** `{...prev, [f]: v}`: field `f` takes the new value, the others keep theirs. */
    function With(f: Field, v: string): (d: FormData)
      ensures d.Get(f) == v
      ensures forall g :: g != f ==> d.Get(g) == Get(g)
    {
      match f
      case Name => this.(name := v)
      case Email => this.(email := v)
      case Company => this.(company := v)
      case LicenseType => this.(licenseType := v)
      case Message => this.(message := v)
    }
  }

  const EmptyForm := FormData("", "", "", "", "")

  const NameRequired := "Name is required"
  const EmailRequired := "Email is required"
  const EmailInvalid := "Email is invalid"
  const CompanyRequired := "Company is required"
  const LicenseTypeRequired := "Please select a license type"

  // ---------------------------------------------------------------------
  // The e-mail pattern ^[^\s@]+@[^\s@]+\.[^\s@]+$
  // ---------------------------------------------------------------------

  /** The character class `[^\s@]`. */
  predicate IsAtomChar(c: char) {
    !IsWhitespace(c) && c != '@'
  }

  /** `[^\s@]+`: a non-empty run of atom characters. */
  predicate IsAtom(t: string) {
    |t| > 0 && forall i :: 0 <= i < |t| ==> IsAtomChar(t[i])
  }

  /** `s` splits at `i` and `j` as atom, '@', atom, '.', atom. */
  predicate SplitsAsEmail(s: string, i: int, j: int) {
    && 0 <= i < j < |s| && s[i] == '@' && s[j] == '.'
    && IsAtom(s[..i]) && IsAtom(s[i + 1..j]) && IsAtom(s[j + 1..])
  }

  /** The regular expression read as written: some split of `s` into an
      atom, '@', an atom, '.', an atom. */
  ghost predicate MatchesEmailPattern(s: string) {
    exists i, j :: SplitsAsEmail(s, i, j)
  }

  /** A left-to-right check of the same pattern: the text before the first
      '@' is an atom, and the text after it is an atom with a '.' that is
      neither its first nor its last character. */
  function IsValidEmail(s: string): bool {
    match IndexOf(s, '@')
    case None => false
    case Some(at) =>
      var domain := s[at + 1..];
      IsAtom(s[..at]) && IsAtom(domain)
      && exists k :: 0 < k < |domain| - 1 && domain[k] == '.'
  }

  lemma EmailCheckIsPattern(s: string)
    ensures IsValidEmail(s) <==> MatchesEmailPattern(s)
  {
    if IsValidEmail(s) {
      var at := IndexOf(s, '@').value;
      var domain := s[at + 1..];
      var k :| 0 < k < |domain| - 1 && domain[k] == '.';
      var j := at + 1 + k;
      assert s[at + 1..j] == domain[..k];
      assert s[j + 1..] == domain[k + 1..];
      assert s[at] == '@' && s[j] == '.';
      assert SplitsAsEmail(s, at, j);
    }
    if MatchesEmailPattern(s) {
      var i, j :| SplitsAsEmail(s, i, j);
      assert forall k :: 0 <= k < i ==> s[..i][k] != '@';
      IndexOfFindsFirst(s, '@', i);
      var domain := s[i + 1..];
      forall m | 0 <= m < |domain| ensures IsAtomChar(domain[m]) {
        if i + 1 + m < j {
          assert domain[m] == s[i + 1..j][m];
        } else if i + 1 + m > j {
          assert domain[m] == s[j + 1..][i + 1 + m - (j + 1)];
        }
      }
      assert domain[j - i - 1] == '.';
    }
  }

  // ---------------------------------------------------------------------
  // validateForm
  // ---------------------------------------------------------------------

  /** The message, if any, that `validateForm` gives a field holding `v`.
      Name and company must have a non-blank trim; the e-mail must have one
      and, as typed, match the pattern; the license type must be non-empty
      as it stands; the message is never checked. */
  function FieldError(f: Field, v: string): Option<string> {
    match f
    case Name => if IsBlank(v) then Some(NameRequired) else None
    case Email =>
      if IsBlank(v) then Some(EmailRequired)
      else if !IsValidEmail(v) then Some(EmailInvalid)
      else None
    case Company => if IsBlank(v) then Some(CompanyRequired) else None
    case LicenseType => if v == "" then Some(LicenseTypeRequired) else None
    case Message => None
  }

  /** `validateForm`: the map from each failing field to its message. */
  function Validate(d: FormData): (errors: map<Field, string>)
    ensures errors.Keys <= Checked
    ensures Name in errors <==> IsBlank(d.name)
    ensures Email in errors <==> IsBlank(d.email) || !MatchesEmailPattern(d.email)
    ensures Company in errors <==> IsBlank(d.company)
    ensures LicenseType in errors <==> d.licenseType == ""
    ensures Name in errors ==> errors[Name] == NameRequired
    ensures Email in errors && IsBlank(d.email) ==> errors[Email] == EmailRequired
    ensures Email in errors && !IsBlank(d.email) ==> errors[Email] == EmailInvalid
    ensures Company in errors ==> errors[Company] == CompanyRequired
    ensures LicenseType in errors ==> errors[LicenseType] == LicenseTypeRequired
  {
    EmailCheckIsPattern(d.email);
    map f | f in Checked && FieldError(f, d.Get(f)).Some? :: FieldError(f, d.Get(f)).value
  }

  /** The form is accepted exactly when every required field is filled in
      and the e-mail matches the pattern. */
  lemma ValidateAcceptsIff(d: FormData)
    ensures |Validate(d)| == 0 <==>
              && !IsBlank(d.name)
              && MatchesEmailPattern(d.email)
              && !IsBlank(d.company)
              && d.licenseType != ""
  {
    var errors := Validate(d);
    if |errors| == 0 {
      assert Name !in errors && Email !in errors;
    }
    if !IsBlank(d.name) && MatchesEmailPattern(d.email) && !IsBlank(d.company) && d.licenseType != "" {
      assert errors.Keys == {};
    }
  }

  /** The message text plays no part in validation. */
  lemma ValidateIgnoresMessage(d: FormData, text: string)
    ensures Validate(d.With(Message, text)) == Validate(d)
  {
    var d' := d.With(Message, text);
    assert forall f :: f in Checked ==> d'.Get(f) == d.Get(f);
  }

  /** Changing one field changes no other field's verdict or message. */
  lemma ValidateIsLocal(d: FormData, f: Field, v: string, g: Field)
    requires g != f
    ensures g in Validate(d.With(f, v)) <==> g in Validate(d)
    ensures g in Validate(d) ==> Validate(d.With(f, v))[g] == Validate(d)[g]
  {
    var d' := d.With(f, v);
    assert d'.Get(g) == d.Get(g);
  }

  // ---------------------------------------------------------------------
  // The component's state
  // ---------------------------------------------------------------------

  class ContactForm {
    var formData: FormData
    var errors: map<Field, string>
    var isSubmitting: bool
    var isSubmitted: bool

    /** Errors only ever name checked fields, with a non-empty message. */
    ghost predicate Valid()
      reads this
    {
      && errors.Keys <= Checked
      && forall f :: f in errors ==> errors[f] != ""
    }

    /** Every error on display is the one validation gives the field's
        current value. */
    ghost predicate ErrorsAccurate()
      reads this
    {
      forall f :: f in errors ==> f in Validate(formData) && errors[f] == Validate(formData)[f]
    }

    constructor ()
      ensures Valid() && ErrorsAccurate()
      ensures formData == EmptyForm && errors == map[]
      ensures !isSubmitting && !isSubmitted
    {
      formData := EmptyForm;
      errors := map[];
      isSubmitting := false;
      isSubmitted := false;
    }

    /** `handleChange`: store the new value and drop that field's error. */
    method HandleChange(field: Field, value: string)
      requires Valid()
      modifies this
      ensures Valid()
      ensures formData == old(formData).With(field, value)
      ensures field in old(errors) ==> errors == old(errors) - {field}
      ensures field !in old(errors) ==> errors == old(errors)
      ensures isSubmitting == old(isSubmitting) && isSubmitted == old(isSubmitted)
      ensures old(ErrorsAccurate()) ==> ErrorsAccurate()
    {
      ghost var before := formData;
      formData := formData.With(field, value);
      if field in errors && errors[field] != "" {
        errors := errors - {field};
      }
      forall g | g in errors
        ensures g != field
        ensures g in Validate(before) ==> Validate(formData)[g] == Validate(before)[g]
        ensures g in Validate(formData) <==> g in Validate(before)
      {
        ValidateIsLocal(before, field, value, g);
      }
    }

    /** `handleSubmit`: a rejected form shows the validator's errors; an
        accepted one starts submitting and keeps the errors it had. */
    method HandleSubmit()
      requires Valid()
      modifies this
      ensures Valid()
      ensures formData == old(formData) && isSubmitted == old(isSubmitted)
      ensures |Validate(formData)| == 0 ==> isSubmitting && errors == old(errors)
      ensures |Validate(formData)| != 0 ==>
                errors == Validate(formData) && isSubmitting == old(isSubmitting)
      ensures |Validate(formData)| != 0 ==> ErrorsAccurate()
      ensures old(ErrorsAccurate()) ==> ErrorsAccurate()
      ensures old(ErrorsAccurate()) && |Validate(formData)| == 0 ==> errors == map[]
    {
      var newErrors := Validate(formData);
      if |newErrors| == 0 {
        isSubmitting := true;
      } else {
        errors := newErrors;
        assert forall f :: f in errors ==> errors[f] != "";
      }
    }

    /** The callback scheduled by an accepted submit: the form is cleared
        and marked sent. */
    method CompleteSubmission()
      requires Valid()
      modifies this
      ensures Valid()
      ensures !isSubmitting && isSubmitted
      ensures formData == EmptyForm && errors == old(errors)
      ensures old(errors) == map[] ==> ErrorsAccurate()
    {
      isSubmitting := false;
      isSubmitted := true;
      formData := EmptyForm;
    }
  }
}

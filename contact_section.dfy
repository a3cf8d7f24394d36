/**
 * The contact form on the landing page: the e-mail pattern, the per-field
 * validation rules with their messages, and the form state that the change
 * and submit handlers update.
 */
module ContactSection {
  import opened Wrappers
  import opened Text

  datatype FormData = FormData(name: string, email: string, subject: string, message: string)

  /** One optional message per field; `None` is an absent (or undefined) key. */
  datatype FormErrors = FormErrors(name: Option<string>, email: Option<string>, subject: Option<string>, message: Option<string>)

  datatype Field = Name | Email | Subject | Message

  const NoErrors: FormErrors := FormErrors(None, None, None, None)

  /** No field has an error: the errors object has no keys. */
  predicate IsEmpty(e: FormErrors) {
    e.name.None? && e.email.None? && e.subject.None? && e.message.None?
  }

  const EmptyForm: FormData := FormData("", "", "", "")

  const NameRequired: string := "Name is required"
  const EmailRequired: string := "Email is required"
  const InvalidEmail: string := "Please enter a valid email"
  const SubjectRequired: string := "Subject is required"
  const MessageRequired: string := "Message is required"
  const MessageTooShort: string := "Message must be at least 10 characters"

  /** The minimum length of the trimmed message. */
  const MinMessageLength: nat := 10

  /** `[^\s@]`: neither white space nor '@'. */
  predicate IsAtomChar(c: char) {
    !IsWhitespace(c) && c != '@'
  }

  /** `[^\s@]+` */
  predicate IsAtom(s: string) {
    |s| > 0 && forall i :: 0 <= i < |s| ==> IsAtomChar(s[i])
  }

  /** The '@' at index `p` and the '.' at index `k` split `email` into three
      runs of the atom class. */
  predicate EmailSplit(email: string, p: int, k: int) {
    && 0 < p < k < |email| - 1 && email[p] == '@' && email[k] == '.'
    && IsAtom(email[..p]) && IsAtom(email[p + 1..k]) && IsAtom(email[k + 1..])
  }

  /** `/^[^\s@]+@[^\s@]+\.[^\s@]+$/.test(email)`: some '@' and later '.'
      split the text into three runs of the atom class. */
  predicate ValidateEmail(email: string) {
    exists p, k :: 0 < p < k < |email| - 1 && EmailSplit(email, p, k)
  }

  predicate NoWhitespace(s: string) {
    forall i :: 0 <= i < |s| ==> !IsWhitespace(s[i])
  }

  /** Index `p` holds the only '@' of `s`. */
  predicate OnlyAt(s: string, p: int) {
    forall j :: 0 <= j < |s| && s[j] == '@' ==> j == p
  }

  /** `d` has a '.' with at least one character on either side. */
  predicate HasInnerDot(d: string) {
    exists k :: 0 < k < |d| - 1 && d[k] == '.'
  }

  /** What the pattern amounts to: no white space, exactly one '@', not the
      first character, and a '.' strictly inside the part after it. */
  predicate HasEmailShape(email: string) {
    NoWhitespace(email)
    && exists p :: 0 < p < |email| && email[p] == '@' && OnlyAt(email, p) && HasInnerDot(email[p + 1..])
  }

  lemma DotIsAtomChar()
    ensures IsAtomChar('.')
  {
  }

  lemma {:induction false} ValidEmailHasShape(email: string)
    requires ValidateEmail(email)
    ensures HasEmailShape(email)
  {
    var p, k :| EmailSplit(email, p, k);
    assert EmailSplit(email, p, k);
    DotIsAtomChar();
    forall i | 0 <= i < |email| && i != p ensures IsAtomChar(email[i]) {
      if i < p {
        assert email[i] == email[..p][i];
      } else if i < k {
        assert email[i] == email[p + 1..k][i - p - 1];
      } else if k < i {
        assert email[i] == email[k + 1..][i - k - 1];
      }
    }
    var d := email[p + 1..];
    assert d[k - p - 1] == '.';
    assert HasInnerDot(d);
  }

  lemma {:induction false} ShapeIsValidEmail(email: string)
    requires HasEmailShape(email)
    ensures ValidateEmail(email)
  {
    var p :| 0 < p < |email| && email[p] == '@' && OnlyAt(email, p) && HasInnerDot(email[p + 1..]);
    var d := email[p + 1..];
    var kd :| 0 < kd < |d| - 1 && d[kd] == '.';
    var k := p + 1 + kd;
    assert email[k] == '.';
    assert forall i :: 0 <= i < |email| && i != p ==> IsAtomChar(email[i]);
    var a, b, c := email[..p], email[p + 1..k], email[k + 1..];
    assert forall i :: 0 <= i < |a| ==> a[i] == email[i];
    assert forall i :: 0 <= i < |b| ==> b[i] == email[p + 1 + i];
    assert forall i :: 0 <= i < |c| ==> c[i] == email[k + 1 + i];
    assert IsAtom(a) && IsAtom(b) && IsAtom(c);
    assert EmailSplit(email, p, k);
  }

  /** The pattern accepts exactly the texts of that shape. */
  lemma EmailShapeExactly(email: string)
    ensures ValidateEmail(email) <==> HasEmailShape(email)
  {
    if ValidateEmail(email) {
      ValidEmailHasShape(email);
    }
    if HasEmailShape(email) {
      ShapeIsValidEmail(email);
    }
  }

  /** An address the pattern accepts is never blank. */
  lemma ValidEmailNotBlank(email: string)
    requires ValidateEmail(email)
    ensures !IsBlank(email)
  {
    var p, k :| EmailSplit(email, p, k);
    assert EmailSplit(email, p, k);
    assert email[0] == email[..p][0];
  }

  /** `validateForm`'s rule for the name (the subject has the same rule). */
  function RequiredError(value: string, required: string): Option<string> {
    if |Trim(value)| == 0 then Some(required) else None
  }

  /** `validateForm`'s rule for the e-mail: required, then the pattern (on the
      untrimmed text). */
  function EmailError(email: string): Option<string> {
    if |Trim(email)| == 0 then Some(EmailRequired)
    else if !ValidateEmail(email) then Some(InvalidEmail)
    else None
  }

  /** `validateForm`'s rule for the message: required, then at least ten
      characters once trimmed. */
  function MessageError(message: string): Option<string> {
    if |Trim(message)| == 0 then Some(MessageRequired)
    else if |Trim(message)| < MinMessageLength then Some(MessageTooShort)
    else None
  }

  /** A required field reports its message exactly when it is blank. */
  lemma RequiredErrorExactly(value: string, required: string)
    ensures RequiredError(value, required).Some? <==> IsBlank(value)
    ensures RequiredError(value, required).Some? ==> RequiredError(value, required).value == required
  {
  }

  /** The e-mail is "required" exactly when blank, "invalid" exactly when it
      is not blank but the pattern rejects it, and passes exactly when the
      pattern accepts it. */
  lemma EmailErrorExactly(email: string)
    ensures EmailError(email) == Some(EmailRequired) <==> IsBlank(email)
    ensures EmailError(email) == Some(InvalidEmail) <==> !IsBlank(email) && !ValidateEmail(email)
    ensures EmailError(email) == None <==> ValidateEmail(email)
  {
    if ValidateEmail(email) {
      ValidEmailNotBlank(email);
    }
    assert |EmailRequired| != |InvalidEmail|;
  }

  /** The message is "required" exactly when blank, "too short" exactly when
      its trimmed text is non-empty but under ten characters, and passes
      exactly when the trimmed text has at least ten. */
  lemma MessageErrorExactly(message: string)
    ensures MessageError(message) == Some(MessageRequired) <==> IsBlank(message)
    ensures MessageError(message) == Some(MessageTooShort) <==> !IsBlank(message) && |Trim(message)| < MinMessageLength
    ensures MessageError(message) == None <==> |Trim(message)| >= MinMessageLength
  {
    assert |MessageRequired| != |MessageTooShort|;
  }

  /** The errors `validateForm` collects, one rule per field. */
  function ErrorsFor(f: FormData): FormErrors
  {
    FormErrors(RequiredError(f.name, NameRequired), EmailError(f.email),
      RequiredError(f.subject, SubjectRequired), MessageError(f.message))
  }

  /** A form passes validation exactly when the name and subject are not
      blank, the e-mail matches the pattern and the trimmed message has at
      least ten characters. */
  lemma ValidFormExactly(f: FormData)
    ensures IsEmpty(ErrorsFor(f)) <==>
      !IsBlank(f.name) && ValidateEmail(f.email) && !IsBlank(f.subject) && |Trim(f.message)| >= MinMessageLength
  {
    RequiredErrorExactly(f.name, NameRequired);
    EmailErrorExactly(f.email);
    RequiredErrorExactly(f.subject, SubjectRequired);
    MessageErrorExactly(f.message);
  }

  function GetField(f: FormData, field: Field): string {
    match field
    case Name => f.name
    case Email => f.email
    case Subject => f.subject
    case Message => f.message
  }

  /** `{ ...prev, [field]: value }` */
  function SetField(f: FormData, field: Field, value: string): (g: FormData)
    ensures GetField(g, field) == value
    ensures forall other :: other != field ==> GetField(g, other) == GetField(f, other)
  {
    match field
    case Name => f.(name := value)
    case Email => f.(email := value)
    case Subject => f.(subject := value)
    case Message => f.(message := value)
  }

  function GetError(e: FormErrors, field: Field): Option<string> {
    match field
    case Name => e.name
    case Email => e.email
    case Subject => e.subject
    case Message => e.message
  }

  /** `{ ...prev, [field]: undefined }` */
  function ClearError(e: FormErrors, field: Field): (r: FormErrors)
    ensures GetError(r, field) == None
    ensures forall other :: other != field ==> GetError(r, other) == GetError(e, other)
  {
    match field
    case Name => e.(name := None)
    case Email => e.(email := None)
    case Subject => e.(subject := None)
    case Message => e.(message := None)
  }

  /** The body of `validateForm`: starts from an empty record and adds one
      message per failing field, in the order name, email, subject, message. */
  method CollectErrors(f: FormData) returns (newErrors: FormErrors)
    ensures newErrors == ErrorsFor(f)
  {
    newErrors := NoErrors;
    if |Trim(f.name)| == 0 {
      newErrors := newErrors.(name := Some(NameRequired));
    }
    assert newErrors.name == RequiredError(f.name, NameRequired);
    if |Trim(f.email)| == 0 {
      newErrors := newErrors.(email := Some(EmailRequired));
    } else if !ValidateEmail(f.email) {
      newErrors := newErrors.(email := Some(InvalidEmail));
    }
    assert newErrors.email == EmailError(f.email);
    if |Trim(f.subject)| == 0 {
      newErrors := newErrors.(subject := Some(SubjectRequired));
    }
    assert newErrors.subject == RequiredError(f.subject, SubjectRequired);
    if |Trim(f.message)| == 0 {
      newErrors := newErrors.(message := Some(MessageRequired));
    } else if |Trim(f.message)| < MinMessageLength {
      newErrors := newErrors.(message := Some(MessageTooShort));
    }
  }

  /** The state of the `ContactSection` component. */
  class ContactForm {
    var formData: FormData
    var errors: FormErrors
    var isSubmitting: bool
    var isSuccess: bool

    /** The initial state: empty fields, no errors, not submitting. */
    constructor()
      ensures formData == EmptyForm && errors == NoErrors && !isSubmitting && !isSuccess
    {
      formData := EmptyForm;
      errors := NoErrors;
      isSubmitting := false;
      isSuccess := false;
    }

    /** `validateForm`: stores the errors of the current form data and
        reports whether there were none. */
    method ValidateForm() returns (ok: bool)
      modifies this`errors
      ensures errors == ErrorsFor(formData)
      ensures ok <==> IsEmpty(errors)
    {
      var data := formData;
      var newErrors := CollectErrors(data);
      errors := newErrors;
      ok := IsEmpty(newErrors);
      assert formData == data;
    }

    /** `handleChange`: stores the new value and, when the field showed an
        error, clears that error alone. */
    method HandleChange(field: Field, value: string)
      modifies this
      ensures formData == SetField(old(formData), field, value)
      ensures GetError(old(errors), field).Some? ==> errors == ClearError(old(errors), field)
      ensures GetError(old(errors), field).None? ==> errors == old(errors)
      ensures isSubmitting == old(isSubmitting) && isSuccess == old(isSuccess)
    {
      formData := SetField(formData, field, value);
      if GetError(errors, field).Some? {
        errors := ClearError(errors, field);
      }
    }

    /** `handleSubmit` up to the simulated request: an invalid form stops
        after showing its errors; a valid one starts submitting. */
    method HandleSubmit() returns (submitted: bool)
      modifies this`errors, this`isSubmitting
      ensures errors == ErrorsFor(formData)
      ensures submitted <==> IsEmpty(ErrorsFor(formData))
      ensures submitted ==> isSubmitting
      ensures !submitted ==> isSubmitting == old(isSubmitting)
    {
      var ok := ValidateForm();
      if !ok {
        return false;
      }
      isSubmitting := true;
      return true;
    }

    /** The end of the simulated request: the form stops submitting and shows
        its success state. */
    method FinishSubmit()
      modifies this`isSubmitting, this`isSuccess
      ensures !isSubmitting && isSuccess
    {
      isSubmitting := false;
      isSuccess := true;
    }

    /** The delayed reset after a success: every field is emptied and the
        success state is dropped; the errors are left as they were. */
    method ResetAfterSuccess()
      modifies this`formData, this`isSuccess
      ensures formData == EmptyForm && !isSuccess
    {
      formData := EmptyForm;
      isSuccess := false;
    }
  }

  /** Validating the empty form, the state after a reset, reports every field
      as required. */
  lemma EmptyFormAllRequired()
    ensures ErrorsFor(EmptyForm) == FormErrors(Some(NameRequired), Some(EmailRequired), Some(SubjectRequired), Some(MessageRequired))
    ensures !IsEmpty(ErrorsFor(EmptyForm))
  {
    assert IsBlank("");
  }
}

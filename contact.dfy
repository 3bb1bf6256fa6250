/**
 * The contact section: the three-field validation schema, the submit
 * handler that runs once the schema passes, and the section's state
 * (`isSuccess` and the form's field values and errors).
 */
module Contact {
  import opened Wrappers

  datatype ContactForm = ContactForm(name: string, email: string, message: string)

  /** The field values after `reset()`: the form has no default values, so every input is empty. */
  const EmptyForm: ContactForm := ContactForm("", "", "")

  const NameMinLength: nat := 2
  const MessageMinLength: nat := 10

  const NameTooShort: string := "Name is too short"
  const InvalidEmail: string := "Invalid email address"
  const MessageTooShort: string := "Message must be at least 10 characters"

  /**
   * A JavaScript string's `length`: the number of UTF-16 code units, one per
   * character of the Basic Multilingual Plane and two for any other.
   */
  function Utf16Length(s: string): (n: nat)
    ensures |s| <= n <= 2 * |s|
  {
    if s == [] then 0
    else (if s[0] as int < 0x1_0000 then 1 else 2) + Utf16Length(s[1..])
  }

  /** For text within the Basic Multilingual Plane the JavaScript length is the character count. */
  lemma {:induction false} Utf16LengthBmp(s: string)
    requires forall i :: 0 <= i < |s| ==> s[i] as int < 0x1_0000
    ensures Utf16Length(s) == |s|
  {
    if s != [] {
      Utf16LengthBmp(s[1..]);
    }
  }

  /** The error shown under each field, if any (`formState.errors`). */
  datatype Errors = Errors(name: Option<string>, email: Option<string>, message: Option<string>)

  const NoErrors: Errors := Errors(None, None, None)

  /** A `min(n, text)` string rule: the text when the string is shorter than `n`. */
  function MinLength(s: string, n: nat, text: string): (e: Option<string>)
  {
    if Utf16Length(s) < n then Some(text) else None
  }

  /**
   * The schema, applied to every field at once; `isEmail` stands for the
   * email grammar of the validation library.
   */
  function Validate(form: ContactForm, isEmail: string -> bool): (e: Errors)
    ensures e.name.Some? <==> Utf16Length(form.name) < NameMinLength
    ensures e.email.Some? <==> !isEmail(form.email)
    ensures e.message.Some? <==> Utf16Length(form.message) < MessageMinLength
    ensures e.name.Some? ==> e.name.value == NameTooShort
    ensures e.email.Some? ==> e.email.value == InvalidEmail
    ensures e.message.Some? ==> e.message.value == MessageTooShort
  {
    Errors(MinLength(form.name, NameMinLength, NameTooShort),
           if isEmail(form.email) then None else Some(InvalidEmail),
           MinLength(form.message, MessageMinLength, MessageTooShort))
  }

  /** The schema accepts the form: no field carries an error. */
  predicate Passes(form: ContactForm, isEmail: string -> bool) {
    Validate(form, isEmail) == NoErrors
  }

  /** The form passes exactly when all three field rules hold. */
  lemma PassesIff(form: ContactForm, isEmail: string -> bool)
    ensures Passes(form, isEmail)
            <==> Utf16Length(form.name) >= 2 && isEmail(form.email) && Utf16Length(form.message) >= 10
  {
  }

  /** Each field's error depends on that field alone. */
  lemma FieldsIndependent(f: ContactForm, g: ContactForm, isEmail: string -> bool)
    ensures f.name == g.name ==> Validate(f, isEmail).name == Validate(g, isEmail).name
    ensures f.email == g.email ==> Validate(f, isEmail).email == Validate(g, isEmail).email
    ensures f.message == g.message ==> Validate(f, isEmail).message == Validate(g, isEmail).message
  {
  }

  /** Breaking only the name rule gives exactly the name error. */
  lemma OnlyNameFails(form: ContactForm, isEmail: string -> bool)
    requires Utf16Length(form.name) < 2 && isEmail(form.email) && Utf16Length(form.message) >= 10
    ensures Validate(form, isEmail) == Errors(Some(NameTooShort), None, None)
  {
  }

  /** A one-character name, a rejected email and a two-character message give all three errors. */
  lemma AllThreeFail(isEmail: string -> bool)
    requires !isEmail("bad")
    ensures Validate(ContactForm("J", "bad", "hi"), isEmail)
            == Errors(Some(NameTooShort), Some(InvalidEmail), Some(MessageTooShort))
  {
  }

  /** A well-formed message passes whenever its address is accepted. */
  lemma WellFormedPasses(isEmail: string -> bool)
    requires isEmail("jane@x.com")
    ensures Passes(ContactForm("Jane Doe", "jane@x.com", "Hello there, this is a test."), isEmail)
  {
  }

  /** The three inputs of the form. */
  datatype Field = Name | Email | Message

  /** The form with one field's value replaced. */
  function WithField(form: ContactForm, field: Field, value: string): ContactForm {
    match field
    case Name => form.(name := value)
    case Email => form.(email := value)
    case Message => form.(message := value)
  }

  /** The error a validation result holds for one field. */
  function FieldError(e: Errors, field: Field): Option<string> {
    match field
    case Name => e.name
    case Email => e.email
    case Message => e.message
  }

  /** The errors with one field's entry replaced. */
  function WithError(e: Errors, field: Field, error: Option<string>): (r: Errors)
    ensures FieldError(r, field) == error
    ensures forall other :: other != field ==> FieldError(r, other) == FieldError(e, other)
  {
    match field
    case Name => e.(name := error)
    case Email => e.(email := error)
    case Message => e.(message := error)
  }

  /** The error the schema gives an edited field depends on the new value alone. */
  lemma EditedFieldError(f: ContactForm, g: ContactForm, field: Field, value: string, isEmail: string -> bool)
    ensures FieldError(Validate(WithField(f, field, value), isEmail), field)
            == FieldError(Validate(WithField(g, field, value), isEmail), field)
  {
  }

  /**
   * The contact section's state. The form validates on submit and, once a
   * submit has been attempted, re-validates each field as it changes.
   */
  class ContactSection {
    /** Whether the success notice is shown. */
    var isSuccess: bool
    /** The values currently in the three inputs. */
    var form: ContactForm
    /** The errors the last validation left on the fields. */
    var errors: Errors
    /** Whether a submit was attempted since the form was last reset. */
    var isSubmitted: bool
    /** The email grammar of the schema, fixed for the section's lifetime. */
    const isEmail: string -> bool

    /** The section as first rendered: no notice, empty inputs, no errors, no submit yet. */
    constructor (isEmail: string -> bool)
      ensures this.isEmail == isEmail
      ensures !isSuccess && form == EmptyForm && errors == NoErrors && !isSubmitted
    {
      this.isEmail := isEmail;
      isSuccess := false;
      form := EmptyForm;
      errors := NoErrors;
      isSubmitted := false;
    }

    /**
     * Typing into one input changes that field's value. Before any submit the
     * errors stay as they are; after one, the edited field's error is
     * recomputed from the schema and the other fields' errors are kept.
     */
    method Edit(field: Field, value: string)
      modifies this
      ensures form == WithField(old(form), field, value)
      ensures isSuccess == old(isSuccess) && isSubmitted == old(isSubmitted)
      ensures !isSubmitted ==> errors == old(errors)
      ensures isSubmitted ==> FieldError(errors, field) == FieldError(Validate(form, isEmail), field)
      ensures forall other :: other != field ==> FieldError(errors, other) == FieldError(old(errors), other)
    {
      form := WithField(form, field, value);
      if isSubmitted {
        errors := WithError(errors, field, FieldError(Validate(form, isEmail), field));
      }
    }

    /**
     * `onSubmit`: `sent` is the result of `sendContactMessage(data)`, which
     * the model takes as given rather than computing from `data`. Only a
     * successful send shows the notice and resets the form, which also
     * forgets the errors and the submit attempt.
     */
    method OnSubmit(data: ContactForm, sent: bool)
      modifies this
      ensures sent ==> isSuccess && form == EmptyForm && errors == NoErrors && !isSubmitted
      ensures !sent ==> isSuccess == old(isSuccess) && form == old(form) && errors == old(errors)
                        && isSubmitted == old(isSubmitted)
    {
      if sent {
        isSuccess := true;
        form := EmptyForm;
        errors := NoErrors;
        isSubmitted := false;
      }
    }

    /**
     * The form's submit event: validate the current values and, only when
     * every rule passes, hand them to `OnSubmit`. `accepted` says whether
     * the schema passed, so that a message was sent. The form is marked as
     * submitted after `OnSubmit` returns, so a reset inside it does not
     * clear the mark, and later edits are re-validated.
     */
    method HandleSubmit(sent: bool) returns (accepted: bool)
      modifies this
      ensures accepted <==> Passes(old(form), isEmail)
      ensures isSubmitted
      ensures !accepted ==> errors == Validate(old(form), isEmail)
                            && form == old(form) && isSuccess == old(isSuccess)
      ensures accepted && sent ==> isSuccess && form == EmptyForm && errors == NoErrors
      ensures accepted && !sent ==> isSuccess == old(isSuccess) && form == old(form)
                                    && errors == NoErrors
    {
      errors := Validate(form, isEmail);
      accepted := errors == NoErrors;
      if accepted {
        OnSubmit(form, sent);
      }
      isSubmitted := true;
    }
  }

  /**
   * A client of the section: a rejected one-letter name shows its error, and
   * typing a second letter clears it while the other errors stay.
   */
  method RetypingClearsNameError(isEmail: string -> bool, sent: bool)
    requires !isEmail("bad")
  {
    var section := new ContactSection(isEmail);
    section.Edit(Name, "J");
    section.Edit(Email, "bad");
    assert section.errors == NoErrors;
    var accepted := section.HandleSubmit(sent);
    assert !accepted && section.errors.name == Some(NameTooShort);
    section.Edit(Name, "Jo");
    assert section.errors.name == None;
    assert FieldError(section.errors, Email) == Some(InvalidEmail);
  }

  /**
   * A client of the section: after a message was sent and the form reset,
   * typing a one-letter name shows the name error straight away.
   */
  method TypingAfterSendRevalidates(isEmail: string -> bool)
    requires isEmail("jane@x.com")
  {
    var section := new ContactSection(isEmail);
    section.Edit(Name, "Jane Doe");
    section.Edit(Email, "jane@x.com");
    section.Edit(Message, "Hello there, this is a test.");
    assert section.form == ContactForm("Jane Doe", "jane@x.com", "Hello there, this is a test.");
    WellFormedPasses(isEmail);
    var accepted := section.HandleSubmit(true);
    assert accepted && section.isSuccess && section.form == EmptyForm && section.isSubmitted;
    section.Edit(Name, "J");
    assert section.errors.name == Some(NameTooShort);
  }
}

/**
  The contact page (src/pages/ContactPage.tsx): the FAQ accordion, in which at most
  one answer is open, and the five-field enquiry form, whose change handler rewrites
  the one field named by the input and whose submit handler only reports the form.
 */
module ContactPage {
  import opened Wrappers

  /** The number of entries in the `faqs` list. */
  const FaqCount: nat := 8

  /** The `name` attributes of the form's five controls. */
  datatype Field = Name | Email | Company | Subject | Message

  datatype FormData = FormData(name: string, email: string, company: string, subject: string, message: string)

  /** The form's initial state: all five fields empty. */
  const InitialForm: FormData := FormData("", "", "", "", "")

  /** `formData[field]`. */
  function Get(f: FormData, field: Field): string {
    match field
    case Name => f.name
    case Email => f.email
    case Company => f.company
    case Subject => f.subject
    case Message => f.message
  }

  /** `{ ...formData, [field]: value }`: the named field is replaced and the other four are kept. */
  function WithField(f: FormData, field: Field, value: string): (r: FormData)
    ensures Get(r, field) == value
    ensures forall other :: other != field ==> Get(r, other) == Get(f, other)
  {
    match field
    case Name => f.(name := value)
    case Email => f.(email := value)
    case Company => f.(company := value)
    case Subject => f.(subject := value)
    case Message => f.(message := value)
  }

  /** Writing a field's current value changes nothing, and of two writes to one field the later wins. */
  lemma WithFieldLaws(f: FormData, field: Field, v: string, w: string)
    ensures WithField(f, field, Get(f, field)) == f
    ensures WithField(WithField(f, field, v), field, w) == WithField(f, field, w)
  {
  }

  /** Writes to two different fields do not interfere, so their order does not matter. */
  lemma WithFieldCommutes(f: FormData, a: Field, v: string, b: Field, w: string)
    requires a != b
    ensures WithField(WithField(f, a, v), b, w) == WithField(WithField(f, b, w), a, v)
  {
  }

  /** The controls marked `required`; the company field is optional. */
  predicate Required(field: Field) {
    field != Company
  }

  /** The browser lets the form submit only when every required control is filled in. */
  predicate Submittable(f: FormData) {
    forall field :: Required(field) ==> Get(f, field) != ""
  }

  /** The freshly loaded form cannot be submitted, and filling the four required fields makes it submittable. */
  lemma SubmittableIffRequiredFilled(f: FormData)
    ensures !Submittable(InitialForm)
    ensures Submittable(f) <==> f.name != "" && f.email != "" && f.subject != "" && f.message != ""
  {
    assert Get(InitialForm, Name) == "";
    if f.name != "" && f.email != "" && f.subject != "" && f.message != "" {
      forall field | Required(field) ensures Get(f, field) != "" {
        match field
        case Name =>
        case Email =>
        case Subject =>
        case Message =>
      }
    }
    if Submittable(f) {
      assert Get(f, Name) != "" && Get(f, Email) != "" && Get(f, Subject) != "" && Get(f, Message) != "";
    }
  }

  /** `openFaq === index ? null : index`. */
  function ToggleFaq(open: Option<nat>, i: nat): (r: Option<nat>)
    ensures r == None <==> open == Some(i)
    ensures r != None ==> r == Some(i)
  {
    if open == Some(i) then None else Some(i)
  }

  /** Clicking an entry twice in a row leaves it open if it was open; if another entry or none was open, all end closed. */
  lemma ToggleFaqTwice(open: Option<nat>, i: nat)
    ensures ToggleFaq(ToggleFaq(open, i), i) == (if open == Some(i) then open else None)
  {
  }

  const ThankYouNotice: string := "Thank you for your message! We'll get back to you soon."

  class ContactForm {
    /** The index of the open FAQ entry, if any. */
    var openFaq: Option<nat>
    var formData: FormData

    ghost predicate Valid()
      reads this
    {
      openFaq.Some? ==> openFaq.value < FaqCount
    }

    /** Whether the answer of entry `i` is shown. */
    predicate IsOpen(i: nat)
      reads this
    {
      openFaq == Some(i)
    }

    /** Mounting: no entry open and an empty form. */
    constructor ()
      ensures Valid() && openFaq == None && formData == InitialForm
      ensures forall i :: !IsOpen(i)
    {
      openFaq := None;
      formData := InitialForm;
    }

    /**
      Clicking the question of entry `i`: a closed entry opens and every other entry
      closes; an open entry closes and none stays open.
     */
    method ClickFaq(i: nat)
      requires Valid() && i < FaqCount
      modifies this`openFaq
      ensures Valid()
      ensures IsOpen(i) <==> !old(IsOpen(i))
      ensures forall j :: j != i ==> !IsOpen(j)
      ensures openFaq == ToggleFaq(old(openFaq), i)
    {
      openFaq := ToggleFaq(openFaq, i);
    }

    /** `handleInputChange` for the control named `field` now holding `value`. */
    method InputChange(field: Field, value: string)
      requires Valid()
      modifies this`formData
      ensures Valid()
      ensures Get(formData, field) == value
      ensures forall other :: other != field ==> Get(formData, other) == old(Get(formData, other))
    {
      formData := WithField(formData, field, value);
    }

    /**
      Pressing Send. The browser blocks the submission while a required field is empty;
      otherwise the handler cancels the page load, reports the form as it is and shows the
      thank-you notice. Nothing is sent and the form is not cleared.
     */
    method Submit() returns (reported: Option<FormData>, notice: Option<string>)
      ensures reported.Some? <==> Submittable(formData)
      ensures reported.Some? ==> reported.value == formData
      ensures notice.Some? <==> reported.Some?
      ensures notice.Some? ==> notice.value == ThankYouNotice
    {
      if forall field :: Required(field) ==> Get(formData, field) != "" {
        reported := Some(formData);
        notice := Some(ThankYouNotice);
      } else {
        reported := None;
        notice := None;
      }
    }
  }
}

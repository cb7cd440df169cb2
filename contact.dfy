/** The contact form (src/pages/Contact.tsx): per-field updates of the form
    data and the submit checks that set the error and success state. */
module ContactPage {
  import opened Store

  const MissingFields := "Please fill in all required fields (*)"
  const InvalidEmail := "Please enter a valid email address"

  datatype FormData = FormData(
    firstName: string,
    lastName: string,
    email: string,
    orderNumber: string,
    message: string)

  datatype Field = FirstName | LastName | Email | OrderNumber | Message

  function Get(d: FormData, f: Field): string
  {
    match f
    case FirstName => d.firstName
    case LastName => d.lastName
    case Email => d.email
    case OrderNumber => d.orderNumber
    case Message => d.message
  }

  /** `{...formData, field: value}`: that field replaced, every other kept. */
  function WithField(d: FormData, f: Field, value: string): (r: FormData)
    ensures Get(r, f) == value
    ensures forall g :: g != f ==> Get(r, g) == Get(d, g)
  {
    match f
    case FirstName => d.(firstName := value)
    case LastName => d.(lastName := value)
    case Email => d.(email := value)
    case OrderNumber => d.(orderNumber := value)
    case Message => d.(message := value)
  }

  /** The required fields; the order number is optional. */
  predicate RequiredPresent(d: FormData)
  {
    d.firstName != "" && d.lastName != "" && d.email != "" && d.message != ""
  }

  /** The submit decision: the error to show, or `None` when the form is accepted. */
  function Validate(d: FormData): (r: Option<string>)
    ensures r.None? <==> RequiredPresent(d) && '@' in d.email
    ensures !RequiredPresent(d) ==> r == Some(MissingFields)
    ensures RequiredPresent(d) && '@' !in d.email ==> r == Some(InvalidEmail)
  {
    if !RequiredPresent(d) then Some(MissingFields)
    else if '@' !in d.email then Some(InvalidEmail)
    else None
  }

  /** The order number never affects the decision. */
  lemma OrderNumberIsOptional(d: FormData, n: string)
    ensures Validate(WithField(d, OrderNumber, n)) == Validate(d)
  {
  }

  /** The form's state. */
  class ContactForm {
    var formData: FormData
    var error: string
    var success: bool

    constructor ()
      ensures formData == FormData("", "", "", "", "") && error == "" && !success
    {
      formData := FormData("", "", "", "", "");
      error := "";
      success := false;
    }

    /** A field's `onChange`. */
    method OnChange(f: Field, value: string)
      modifies this`formData
      ensures formData == WithField(old(formData), f, value)
    {
      formData := WithField(formData, f, value);
    }

    /** `handleSubmit`: missing fields clear `success`; a bad email leaves it
        as it was; valid input clears the error and sets it. */
    method HandleSubmit()
      modifies this`error, this`success
      ensures !RequiredPresent(formData) ==> error == MissingFields && !success
      ensures RequiredPresent(formData) && '@' !in formData.email ==>
                error == InvalidEmail && success == old(success)
      ensures RequiredPresent(formData) && '@' in formData.email ==> error == "" && success
      ensures success && error == "" <==> Validate(formData).None?
    {
      if !RequiredPresent(formData) {
        error := MissingFields;
        success := false;
        return;
      }
      if '@' !in formData.email {
        error := InvalidEmail;
        return;
      }
      error := "";
      success := true;
    }
  }
}

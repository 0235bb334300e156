/** The field rules that the attributes of `StudentDTO` declare. The web
    framework checks them on every request body bound to a `StudentDTO`
    before the action runs; a body with any error is answered 400. */
module Validation {
  import opened Model

  /** One entry of the framework's model state: the property and its message. */
  datatype FieldError = FieldError(field: string, message: string)

  const NameMaxLength: nat := 100

  /** Custom message of `[Required]` on `StudentName`. */
  const NameRequiredMessage: string := "Student name is required !"
  /** Default message of `[StringLength(100)]` on `StudentName`. */
  const NameTooLongMessage: string := "The field StudentName must be a string with a maximum length of 100."
  /** Custom message of `[EmailAddress]` on `Email`. */
  const EmailMessage: string := "Please enter the valid email address !"
  /** Default message of `[Required]` on `Address`. */
  const AddressRequiredMessage: string := "The Address field is required."

  /** `[Required]`: not null and not empty. */
  predicate Present(v: Option<string>)
  {
    v.Some? && |v.value| > 0
  }

  /** `[StringLength(max)]`: a null value passes. */
  predicate AtMost(v: Option<string>, max: nat)
  {
    v.None? || |v.value| <= max
  }

  /** `[EmailAddress]`: a null value passes; otherwise the library's shape
      check, `emailShape`, decides. */
  predicate EmailAccepted(v: Option<string>, emailShape: string -> bool)
  {
    v.None? || emailShape(v.value)
  }

  /** The errors the framework records for `d`, in declaration order. `Id`
      carries `[ValidateNever]` and is never looked at. */
  function Validate(d: StudentDTO, emailShape: string -> bool): (errors: seq<FieldError>)
    ensures errors == [] <==>
      Present(d.StudentName) && AtMost(d.StudentName, NameMaxLength) &&
      EmailAccepted(d.Email, emailShape) && Present(d.Address)
    ensures forall e :: e in errors ==> e.field == "StudentName" || e.field == "Email" || e.field == "Address"
  {
    (if Present(d.StudentName) then [] else [FieldError("StudentName", NameRequiredMessage)]) +
    (if AtMost(d.StudentName, NameMaxLength) then [] else [FieldError("StudentName", NameTooLongMessage)]) +
    (if EmailAccepted(d.Email, emailShape) then [] else [FieldError("Email", EmailMessage)]) +
    (if Present(d.Address) then [] else [FieldError("Address", AddressRequiredMessage)])
  }

  /** The model state is valid: no rule is broken. */
  predicate IsValid(d: StudentDTO, emailShape: string -> bool)
  {
    Validate(d, emailShape) == []
  }

  /** Any `Id` is acceptable: changing it changes no error. */
  lemma IdNotValidated(d: StudentDTO, id: Int32, emailShape: string -> bool)
    ensures Validate(d.(Id := id), emailShape) == Validate(d, emailShape)
  {
  }

  /** A missing name is reported with its custom message. */
  lemma MissingNameRejected(d: StudentDTO, emailShape: string -> bool)
    requires d.StudentName.None? || d.StudentName == Some("")
    ensures FieldError("StudentName", NameRequiredMessage) in Validate(d, emailShape)
    ensures !IsValid(d, emailShape)
  {
  }

  /** A name longer than 100 characters is reported. */
  lemma LongNameRejected(d: StudentDTO, emailShape: string -> bool)
    requires d.StudentName.Some? && |d.StudentName.value| > NameMaxLength
    ensures FieldError("StudentName", NameTooLongMessage) in Validate(d, emailShape)
    ensures !IsValid(d, emailShape)
  {
  }

  /** `Email` is optional, but a present one must have the email shape. */
  lemma EmailRule(d: StudentDTO, emailShape: string -> bool)
    ensures FieldError("Email", EmailMessage) in Validate(d, emailShape)
            <==> d.Email.Some? && !emailShape(d.Email.value)
  {
  }

  /** A missing address is reported. */
  lemma MissingAddressRejected(d: StudentDTO, emailShape: string -> bool)
    requires d.Address.None? || d.Address == Some("")
    ensures FieldError("Address", AddressRequiredMessage) in Validate(d, emailShape)
    ensures !IsValid(d, emailShape)
  {
  }
}

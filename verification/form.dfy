/**
 * The business form (`BusinessForm`): the trim-based validator, the submit
 * gate and the per-field input handler.
 */
module Form {
  import opened Wrappers
  import opened Strings

  datatype FormData = FormData(name: string, location: string)

  datatype Field = Name | Location

  /** `Partial<BusinessForm>`: a field's message, or `None` for an absent or `undefined` entry. */
  datatype FieldErrors = FieldErrors(name: Option<string>, location: Option<string>)

  /** The form component's own state. */
  datatype FormState = FormState(data: FormData, errors: FieldErrors)

  const NameRequired: string := "Business name is required"
  const LocationRequired: string := "Location is required"

  /** The form as first rendered: both fields empty, no errors shown. */
  const InitialForm: FormState := FormState(FormData("", ""), FieldErrors(None, None))

  function Get(f: FormData, field: Field): string {
    match field
    case Name => f.name
    case Location => f.location
  }

  function ErrorOf(e: FieldErrors, field: Field): Option<string> {
    match field
    case Name => e.name
    case Location => e.location
  }

  /** JavaScript truthiness of an error entry. */
  predicate Shown(m: Option<string>) {
    m.Some? && m.value != ""
  }

  /** `Object.keys(errors).length` for an errors object built by the validator. */
  function KeyCount(e: FieldErrors): (n: nat)
    ensures n <= 2
    ensures n == 0 <==> e == FieldErrors(None, None)
    ensures n == 2 <==> e.name.Some? && e.location.Some?
  {
    (if e.name.Some? then 1 else 0) + (if e.location.Some? then 1 else 0)
  }

  datatype Validation = Validation(errors: FieldErrors, valid: bool)

  /** `validateForm`: the errors it stores and the verdict it returns. */
  function ValidateForm(f: FormData): (v: Validation)
    ensures v.errors.name.Some? <==> AllWhiteSpace(f.name)
    ensures v.errors.location.Some? <==> AllWhiteSpace(f.location)
    ensures v.errors.name.Some? ==> v.errors.name.value == NameRequired
    ensures v.errors.location.Some? ==> v.errors.location.value == LocationRequired
    ensures v.valid <==> !AllWhiteSpace(f.name) && !AllWhiteSpace(f.location)
  {
    var nameError := if Trim(f.name) == "" then Some(NameRequired) else None;
    var locationError := if Trim(f.location) == "" then Some(LocationRequired) else None;
    var errors := FieldErrors(nameError, locationError);
    Validation(errors, KeyCount(errors) == 0)
  }

  /** The outcome of `handleSubmit`: the new state and what was passed to `onSubmit`, if anything. */
  datatype Submission = Submission(state: FormState, submitted: Option<FormData>)

  /** `handleSubmit`: validate, and hand the form data on unchanged when it is valid. */
  function HandleSubmit(s: FormState): (r: Submission)
    ensures r.submitted.Some? <==> ValidateForm(s.data).valid
    ensures r.submitted.Some? ==> r.submitted.value == s.data
    ensures r.state.data == s.data
    ensures r.state.errors == ValidateForm(s.data).errors
  {
    var v := ValidateForm(s.data);
    Submission(FormState(s.data, v.errors), if v.valid then Some(s.data) else None)
  }

  /** `handleInputChange(field, value)`. */
  function HandleInputChange(s: FormState, field: Field, value: string): (r: FormState)
    ensures Get(r.data, field) == value
    ensures forall other :: other != field ==> Get(r.data, other) == Get(s.data, other)
    ensures !Shown(ErrorOf(r.errors, field))
    ensures forall other :: other != field ==> ErrorOf(r.errors, other) == ErrorOf(s.errors, other)
    ensures !Shown(ErrorOf(s.errors, field)) ==> r.errors == s.errors
  {
    var data := match field
      case Name => s.data.(name := value)
      case Location => s.data.(location := value);
    var errors :=
      if !Shown(ErrorOf(s.errors, field)) then s.errors
      else match field
        case Name => s.errors.(name := None)
        case Location => s.errors.(location := None);
    FormState(data, errors)
  }

  /**
   * The form as first rendered shows no error, and submitting it unedited
   * passes nothing on and shows both required-field errors.
   */
  lemma InitialFormRefused()
    ensures !Shown(ErrorOf(InitialForm.errors, Name)) && !Shown(ErrorOf(InitialForm.errors, Location))
    ensures HandleSubmit(InitialForm).submitted == None
    ensures HandleSubmit(InitialForm).state.errors == FieldErrors(Some(NameRequired), Some(LocationRequired))
  {
  }

  /** The verdict agrees with the error map: valid exactly when no field has an entry. */
  lemma VerdictMatchesErrors(f: FormData)
    ensures ValidateForm(f).valid <==> ValidateForm(f).errors == FieldErrors(None, None)
  {
  }

  /** Whatever reaches `onSubmit` has a name and a location that are not blank after trimming. */
  lemma SubmittedFormIsTrimNonEmpty(s: FormState)
    ensures HandleSubmit(s).submitted.Some? ==>
      Trim(s.data.name) != "" && Trim(s.data.location) != "" &&
      s.data.name != "" && s.data.location != ""
  {
    if HandleSubmit(s).submitted.Some? {
      assert !AllWhiteSpace(s.data.name) && !AllWhiteSpace(s.data.location);
    }
  }
}

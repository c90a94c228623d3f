/** The contact form's state machine. Contact.tsx and Contact.jsx carry the
    same `handleChange` and `handleSubmit` logic, so one model serves both. */
module ContactFlow {
  import opened Base
  import opened Types

  /** The inputs of the form, by their `name` attribute. */
  datatype FormField = Name | Email | Company | Subject | Message

  datatype ContactState = ContactState(formData: ContactForm, isSubmitting: bool, isSubmitted: bool, error: Option<string>)

  const EmptyForm: ContactForm := ContactForm("", "", Some(""), "", "")

  const DefaultError: string := "Failed to send message"

  const InitialContact: ContactState := ContactState(EmptyForm, false, false, None)

  /** The value the form shows for `field`. */
  function Get(f: ContactForm, field: FormField): Option<string> {
    match field
    case Name => Some(f.name)
    case Email => Some(f.email)
    case Company => f.company
    case Subject => Some(f.subject)
    case Message => Some(f.message)
  }

  /** `{...formData, [name]: value}`. */
  function WithField(f: ContactForm, field: FormField, value: string): ContactForm {
    match field
    case Name => f.(name := value)
    case Email => f.(email := value)
    case Company => f.(company := Some(value))
    case Subject => f.(subject := value)
    case Message => f.(message := value)
  }

  function Changed(s: ContactState, field: FormField, value: string): ContactState {
    s.(formData := WithField(s.formData, field, value))
  }

  /** The synchronous start of `handleSubmit`; the form itself is the request. */
  function Submitting(s: ContactState): ContactState {
    s.(isSubmitting := true, error := None)
  }

  /** `handleSubmit` after the server answered with `resp`. */
  function Responded(s: ContactState, resp: ContactResponse): ContactState {
    if resp.success then s.(isSubmitted := true, isSubmitting := false)
    else s.(error := Some(OrElse(resp.error, DefaultError)), isSubmitting := false)
  }

  /** `handleSubmit` after the request failed with `err`. */
  function Raised(s: ContactState, err: RequestError): ContactState {
    s.(error := Some(DetailOrMessage(err, DefaultError)), isSubmitting := false)
  }

  /** The timer callback scheduled three seconds after a success. */
  function ResetForm(s: ContactState): ContactState {
    s.(formData := EmptyForm, isSubmitted := false)
  }

  /** The form component's state and its handlers. */
  class Contact {
    var formData: ContactForm
    var isSubmitting: bool
    var isSubmitted: bool
    var error: Option<string>

    function State(): ContactState
      reads this
    {
      ContactState(formData, isSubmitting, isSubmitted, error)
    }

    constructor ()
      ensures State() == InitialContact
    {
      formData := EmptyForm;
      isSubmitting := false;
      isSubmitted := false;
      error := None;
    }

    method HandleChange(field: FormField, value: string)
      modifies this
      ensures State() == Changed(old(State()), field, value)
    {
      formData := WithField(formData, field, value);
    }

    /** The start of `handleSubmit`; `request` is the form sent. */
    method BeginSubmit() returns (request: ContactForm)
      modifies this
      ensures State() == Submitting(old(State())) && request == old(formData)
    {
      isSubmitting := true;
      error := None;
      request := formData;
    }

    method CompleteResponse(resp: ContactResponse)
      modifies this
      ensures State() == Responded(old(State()), resp)
    {
      if resp.success {
        isSubmitted := true;
      } else {
        error := Some(OrElse(resp.error, DefaultError));
      }
      isSubmitting := false;
    }

    method CompleteError(err: RequestError)
      modifies this
      ensures State() == Raised(old(State()), err)
    {
      error := Some(DetailOrMessage(err, DefaultError));
      isSubmitting := false;
    }

    method ResetAfterSuccess()
      modifies this
      ensures State() == ResetForm(old(State()))
    {
      formData := EmptyForm;
      isSubmitted := false;
    }
  }

  // Properties of the form's handlers

  /** Changing one field sets it and leaves every other field as it was. */
  lemma ChangeTouchesOneField(s: ContactState, field: FormField, value: string, other: FormField)
    ensures Get(Changed(s, field, value).formData, field) == Some(value)
    ensures other != field ==> Get(Changed(s, field, value).formData, other) == Get(s.formData, other)
    ensures Changed(s, field, value).(formData := s.formData) == s
  {
  }

  /** A submit starts with the flag set and no error. */
  lemma SubmitStartsClean(s: ContactState)
    ensures Submitting(s).isSubmitting && Submitting(s).error == None
    ensures Submitting(s).formData == s.formData && Submitting(s).isSubmitted == s.isSubmitted
  {
  }

  /** An accepted submission marks the form as sent and records no error. */
  lemma AcceptedMarksSubmitted(s: ContactState, resp: ContactResponse)
    requires resp.success
    ensures Responded(s, resp).isSubmitted && Responded(s, resp).error == s.error
  {
  }

  /** A refused submission shows the server's error, or the default one,
      and is not marked as sent. */
  lemma RefusedReportsError(s: ContactState, resp: ContactResponse)
    requires !resp.success
    ensures Responded(s, resp).isSubmitted == s.isSubmitted
    ensures Truthy(resp.error) ==> Responded(s, resp).error == resp.error
    ensures !Truthy(resp.error) ==> Responded(s, resp).error == Some(DefaultError)
  {
  }

  /** A failed request shows the detail, else the message, else the default,
      never a blank text, and is not marked as sent. */
  lemma RaisedReportsError(s: ContactState, err: RequestError)
    ensures var e := Raised(s, err).error.value;
      && (Truthy(Detail(err)) ==> e == Detail(err).value)
      && (!Truthy(Detail(err)) && Truthy(Types.Message(err)) ==> e == Types.Message(err).value)
      && (!Truthy(Detail(err)) && !Truthy(Types.Message(err)) ==> e == DefaultError)
      && e != ""
    ensures Raised(s, err).isSubmitted == s.isSubmitted
  {
  }

  /** Every outcome of a submit ends with the flag cleared. */
  lemma SubmittingEndsAfterEveryOutcome(s: ContactState, resp: ContactResponse, err: RequestError)
    ensures !Responded(Submitting(s), resp).isSubmitting
    ensures !Raised(Submitting(s), err).isSubmitting
  {
  }

  /** The delayed reset empties all five fields and clears the sent mark. */
  lemma ResetClearsForm(s: ContactState, field: FormField)
    ensures Get(ResetForm(s).formData, field) == Some("")
    ensures !ResetForm(s).isSubmitted
  {
  }

  /** Submitting, being accepted and being reset brings any form back to
      the state of a freshly mounted one. */
  lemma SuccessfulRoundTripStartsOver(s: ContactState, resp: ContactResponse)
    requires resp.success
    ensures ResetForm(Responded(Submitting(s), resp)) == InitialContact
  {
  }
}

/**
 * The registration form: its field-by-field state, the client-side copy of
 * the backend's validation rules, and the submit handler that sends a
 * registration request only for a form that passes them.
 */
module RegisterPage {
  import opened Records
  import opened JsText
  import opened JsArray
  import opened Validation

  /** The form state, one string per input. */
  datatype FormData = FormData(
    companyName: string, contactName: string, email: string, phone: string, gstin: string,
    clientType: string, address: string, city: string, state: string, pincode: string)

  const EmptyForm := FormData("", "", "", "", "", "", "", "", "", "")

  /** The inputs of the form, by their field of the form state. */
  datatype FormField =
    CompanyName | ContactName | Email | Phone | Gstin | ClientType | Address | City | State | Pincode

  /** The JSON member name of a field. */
  function Key(f: FormField): string {
    match f
    case CompanyName => "companyName"
    case ContactName => "contactName"
    case Email => "email"
    case Phone => "phone"
    case Gstin => "gstin"
    case ClientType => "clientType"
    case Address => "address"
    case City => "city"
    case State => "state"
    case Pincode => "pincode"
  }

  /** `formData[field]`. */
  function Get(form: FormData, f: FormField): string {
    match f
    case CompanyName => form.companyName
    case ContactName => form.contactName
    case Email => form.email
    case Phone => form.phone
    case Gstin => form.gstin
    case ClientType => form.clientType
    case Address => form.address
    case City => form.city
    case State => form.state
    case Pincode => form.pincode
  }

  /** `{ ...prev, [field]: value }`. */
  function With(form: FormData, f: FormField, v: string): FormData {
    match f
    case CompanyName => form.(companyName := v)
    case ContactName => form.(contactName := v)
    case Email => form.(email := v)
    case Phone => form.(phone := v)
    case Gstin => form.(gstin := v)
    case ClientType => form.(clientType := v)
    case Address => form.(address := v)
    case City => form.(city := v)
    case State => form.(state := v)
    case Pincode => form.(pincode := v)
  }

  /** Updating a field sets that field, keeps every other one, and is the only form with those fields. */
  lemma WithSetsOneField(form: FormData, f: FormField, v: string, other: FormData)
    ensures Get(With(form, f, v), f) == v
    ensures forall g :: g != f ==> Get(With(form, f, v), g) == Get(form, g)
    ensures (Get(other, f) == v && forall g :: g != f ==> Get(other, g) == Get(form, g)) ==> other == With(form, f, v)
  {
    if Get(other, f) == v && forall g :: g != f ==> Get(other, g) == Get(form, g) {
      assert forall g :: Get(other, g) == Get(With(form, f, v), g);
      assert Get(other, CompanyName) == Get(With(form, f, v), CompanyName);
      assert Get(other, ContactName) == Get(With(form, f, v), ContactName);
      assert Get(other, Email) == Get(With(form, f, v), Email);
      assert Get(other, Phone) == Get(With(form, f, v), Phone);
      assert Get(other, Gstin) == Get(With(form, f, v), Gstin);
      assert Get(other, ClientType) == Get(With(form, f, v), ClientType);
      assert Get(other, Address) == Get(With(form, f, v), Address);
      assert Get(other, City) == Get(With(form, f, v), City);
      assert Get(other, State) == Get(With(form, f, v), State);
      assert Get(other, Pincode) == Get(With(form, f, v), Pincode);
    }
  }

  /** The required fields of the form, in the backend's order. */
  const RequiredFormFields: seq<FormField> := [CompanyName, ContactName, Email, Gstin, ClientType]

  function BlankInForm(form: FormData): FormField -> bool {
    f => Get(form, f) == ""
  }

  /** `required.filter(field => !formData[field])`. */
  function FormMissing(form: FormData): seq<FormField> {
    Filter(RequiredFormFields, BlankInForm(form))
  }

  /** The outcome of `validateForm`: passed, or the title of the toast that stopped it. */
  datatype FormCheck = Passed | Failed(title: string)

  /** `validateForm`: missing fields first, then the email pattern, then the GSTIN length. */
  function ValidateForm(form: FormData): FormCheck {
    if FormMissing(form) != [] then Failed("Validation Error")
    else if !ValidEmail(form.email) then Failed("Invalid Email")
    else if Utf16Length(form.gstin) != 15 then Failed("Invalid GSTIN")
    else Passed
  }

  /** The body the backend receives for a form: `JSON.stringify(formData)`, all ten members. */
  function BodyOf(form: FormData): Body {
    map[
      "companyName" := form.companyName, "contactName" := form.contactName, "email" := form.email,
      "phone" := form.phone, "gstin" := form.gstin, "clientType" := form.clientType,
      "address" := form.address, "city" := form.city, "state" := form.state, "pincode" := form.pincode]
  }

  lemma BodyOfMembers(form: FormData)
    ensures forall f :: Key(f) in BodyOf(form) && BodyOf(form)[Key(f)] == Get(form, f)
  {
    forall f ensures Key(f) in BodyOf(form) && BodyOf(form)[Key(f)] == Get(form, f) {
      match f
      case CompanyName =>
      case ContactName =>
      case Email =>
      case Phone =>
      case Gstin =>
      case ClientType =>
      case Address =>
      case City =>
      case State =>
      case Pincode =>
    }
  }

  /** The form's missing list names the same fields, in the same order, as the backend's for its body. */
  lemma SameMissingList(form: FormData)
    ensures Map(FormMissing(form), Key) == Missing(BodyOf(form))
  {
    var body := BodyOf(form);
    BodyOfMembers(form);
    assert RequiredFields == Map(RequiredFormFields, Key);
    forall f ensures BlankInForm(form)(f) == BlankIn(body)(Key(f)) {
      assert Key(f) in body;
    }
    FilterMap(RequiredFormFields, Key, BlankIn(body), BlankInForm(form));
  }

  /**
   * The form check and the backend's check agree on every form: the form
   * passes exactly when the backend accepts its body, and otherwise the toast
   * title is the backend's error for it.
   */
  lemma FormCheckMatchesServer(form: FormData)
    ensures ValidateForm(form) == (match Validate(BodyOf(form))
                                   case Accepted => Passed
                                   case Rejected(e) => Failed(e.Title()))
  {
    var body := BodyOf(form);
    BodyOfMembers(form);
    SameMissingList(form);
    assert (Missing(body) == []) == (FormMissing(form) == []);
    assert Key(Email) in body && Key(Gstin) in body;
    assert body["email"] == form.email && body["gstin"] == form.gstin;
  }

  /** The reply of the registration request as the page sees it. */
  datatype RegistrationReply = RegistrationReply(error: Option<string>, client: Option<Client>)

  /** `response.error` is truthy. */
  predicate HasError(reply: RegistrationReply) {
    reply.error.Some? && reply.error.value != ""
  }

  /** The registration page's state. */
  class Page {
    var form: FormData
    var isSubmitting: bool
    /** The `currentClient` entry of local storage. */
    var currentClient: Option<Client>
    /** The bodies of the registration requests sent so far. */
    var requests: seq<FormData>

    constructor (stored: Option<Client>)
      ensures form == EmptyForm && !isSubmitting && currentClient == stored && requests == []
    {
      form := EmptyForm;
      isSubmitting := false;
      currentClient := stored;
      requests := [];
    }

    /** `handleInputChange`: replaces one field of the form state. */
    method HandleInputChange(field: FormField, value: string)
      modifies this`form
      ensures form == With(old(form), field, value)
      ensures Get(form, field) == value
      ensures forall g :: g != field ==> Get(form, g) == Get(old(form), g)
    {
      WithSetsOneField(form, field, value, form);
      form := With(form, field, value);
    }

    /**
     * An edit of an input as the page wires its `onChange` handlers: the GSTIN
     * input upper-cases what it receives, every other input stores it as
     * typed. An upper-case GSTIN stays upper-case.
     */
    method OnInput(field: FormField, raw: string)
      modifies this`form
      ensures form == With(old(form), field, if field == Gstin then ToUpper(raw) else raw)
      ensures field == Gstin ==> form.gstin == ToUpper(raw) && IsUpperCase(form.gstin)
      ensures IsUpperCase(old(form).gstin) ==> IsUpperCase(form.gstin)
    {
      ToUpperIsUpperCase(raw);
      var value := if field == Gstin then ToUpper(raw) else raw;
      HandleInputChange(field, value);
    }

    /** Every request sent so far carried a form that passed the check. */
    ghost predicate SentOnlyValid()
      reads this
    {
      forall i :: 0 <= i < |requests| ==> ValidateForm(requests[i]) == Passed
    }

    /**
     * `handleSubmit`, given the reply the backend would send: a form that fails
     * the check sends nothing and changes nothing. Otherwise the form is sent,
     * the stored current client is replaced only by a client in a reply without
     * an error, and the page is no longer submitting.
     */
    method HandleSubmit(reply: RegistrationReply) returns (sent: bool)
      modifies this`isSubmitting, this`currentClient, this`requests
      ensures sent <==> ValidateForm(form) == Passed
      ensures !sent ==> requests == old(requests) && currentClient == old(currentClient)
                        && isSubmitting == old(isSubmitting)
      ensures sent ==> requests == old(requests) + [form] && !isSubmitting
      ensures sent ==> currentClient == if !HasError(reply) && reply.client.Some? then reply.client
                                        else old(currentClient)
      ensures old(SentOnlyValid()) ==> SentOnlyValid()
    {
      if ValidateForm(form) != Passed {
        return false;
      }
      isSubmitting := true;
      requests := requests + [form];
      sent := true;
      if !HasError(reply) && reply.client.Some? {
        currentClient := reply.client;
      }
      isSubmitting := false;
    }
  }

  /** A body sent by the page always passes the backend's validation. */
  lemma SentBodiesPassServerValidation(form: FormData)
    requires ValidateForm(form) == Passed
    ensures Validate(BodyOf(form)) == Accepted
  {
    FormCheckMatchesServer(form);
  }
}

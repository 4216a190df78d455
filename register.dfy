/**
 * The registration page: its form state, the validation chain, the payload
 * built from the form (the full name split at its first space), and the
 * session written to `localStorage` once the server accepts the account.
 */
module RegisterPage {
  import opened Wrappers
  import opened Text
  import opened Entities
  import opened Http
  import opened Auth
  import opened Storage
  import opened Session

  datatype RegisterForm = RegisterForm(name: string, email: string, phone: string, password: string, confirmPassword: string)

  /** The `name` attribute of an input of the form. */
  datatype FormField = NameField | EmailField | PhoneField | PasswordField | ConfirmPasswordField

  const EmptyForm := RegisterForm("", "", "", "", "")

  function FieldValue(form: RegisterForm, field: FormField): string {
    match field
    case NameField => form.name
    case EmailField => form.email
    case PhoneField => form.phone
    case PasswordField => form.password
    case ConfirmPasswordField => form.confirmPassword
  }

  /** `{...prev, [field]: value}` */
  function WithField(form: RegisterForm, field: FormField, value: string): RegisterForm {
    match field
    case NameField => form.(name := value)
    case EmailField => form.(email := value)
    case PhoneField => form.(phone := value)
    case PasswordField => form.(password := value)
    case ConfirmPasswordField => form.(confirmPassword := value)
  }

  /** An input change sets its own field and leaves the other four as they were. */
  lemma WithFieldChangesOnlyThatField(form: RegisterForm, field: FormField, value: string)
    ensures FieldValue(WithField(form, field, value), field) == value
    ensures forall g :: g != field ==> FieldValue(WithField(form, field, value), g) == FieldValue(form, g)
  {
  }

  /**
   * `validateForm`: the message of the first failing check, in the order
   * name, email, phone (each trimmed), password present, password of at
   * least six UTF-16 code units (`password.length`), confirmation equal;
   * `""` when all pass.
   */
  function ValidateForm(form: RegisterForm): (error: string)
  {
    if Trim(form.name) == "" then "Name is required"
    else if Trim(form.email) == "" then "Email is required"
    else if Trim(form.phone) == "" then "Phone number is required"
    else if form.password == "" then "Password is required"
    else if Utf16Length(form.password) < 6 then "Password must be at least 6 characters"
    else if form.password != form.confirmPassword then "Passwords do not match"
    else ""
  }

  /**
   * The message reported is that of the first failing check; a trimmed field
   * is empty exactly when it is blank (white space only).
   */
  lemma {:induction false} ValidationMessages(form: RegisterForm)
    ensures Blank(form.name) ==> ValidateForm(form) == "Name is required"
    ensures !Blank(form.name) && Blank(form.email) ==> ValidateForm(form) == "Email is required"
    ensures !Blank(form.name) && !Blank(form.email) && Blank(form.phone) ==>
              ValidateForm(form) == "Phone number is required"
    ensures !Blank(form.name) && !Blank(form.email) && !Blank(form.phone) && form.password == "" ==>
              ValidateForm(form) == "Password is required"
    ensures !Blank(form.name) && !Blank(form.email) && !Blank(form.phone) && form.password != "" && Utf16Length(form.password) < 6 ==>
              ValidateForm(form) == "Password must be at least 6 characters"
  {
    TrimEmptyIffBlank(form.name);
    TrimEmptyIffBlank(form.email);
    TrimEmptyIffBlank(form.phone);
  }

  /** Once every other check passes, a confirmation that differs from the password is reported. */
  lemma {:induction false} MismatchMessage(form: RegisterForm)
    requires !Blank(form.name) && !Blank(form.email) && !Blank(form.phone) && Utf16Length(form.password) >= 6
    requires form.password != form.confirmPassword
    ensures ValidateForm(form) == "Passwords do not match"
  {
    TrimEmptyIffBlank(form.name);
    TrimEmptyIffBlank(form.email);
    TrimEmptyIffBlank(form.phone);
  }

  /**
   * The form passes exactly when name, email and phone each hold a character
   * that is not white space, and the password (not trimmed) has at least six
   * UTF-16 code units and equals its confirmation.
   */
  lemma {:induction false} ValidFormIff(form: RegisterForm)
    ensures ValidateForm(form) == "" <==>
              && !Blank(form.name) && !Blank(form.email) && !Blank(form.phone)
              && Utf16Length(form.password) >= 6 && form.password == form.confirmPassword
  {
    TrimEmptyIffBlank(form.name);
    TrimEmptyIffBlank(form.email);
    TrimEmptyIffBlank(form.phone);
  }

  /**
   * Three emoji make a long enough password: each is a surrogate pair, so
   * `password.length` is 6 although the password has three characters.
   */
  lemma AstralPasswordPasses()
    ensures ValidateForm(RegisterForm("A", "e", "9", "\U{1F600}\U{1F600}\U{1F600}", "\U{1F600}\U{1F600}\U{1F600}")) == ""
  {
    var pw := "\U{1F600}\U{1F600}\U{1F600}";
    assert Utf16Length(pw[3..]) == 0;
    assert Utf16Length(pw[2..]) == 2;
    assert Utf16Length(pw[1..]) == 4;
    assert Utf16Length(pw) == 6;
    assert !IsWhitespace("A"[0]) && !IsWhitespace("e"[0]) && !IsWhitespace("9"[0]);
    ValidFormIff(RegisterForm("A", "e", "9", pw, pw));
  }

  /** `name.split(' ')[0]`: the longest prefix of the name without a space. */
  function FirstName(name: string): (first: string)
    ensures |first| <= |name| && first == name[..|first|] && ' ' !in first
    ensures |first| < |name| ==> name[|first|] == ' '
  {
    Split(name, ' ')[0]
  }

  /** `name.split(' ').slice(1).join(' ')`: whatever follows the first space, or nothing. */
  function LastName(name: string): (last: string)
    ensures ' ' !in name ==> last == ""
    ensures ' ' in name ==> last == name[|FirstName(name)| + 1..]
  {
    var rest := Split(name, ' ')[1..];
    if ' ' in name then
      SplitAtFirst(name, ' ');
      Join(rest, ' ')
    else
      Join(rest, ' ')
  }

  /**
   * The name is cut at its first space: first and last name joined by a
   * space give it back; a name without a space is all first name.
   */
  lemma {:induction false} NameSplitRoundTrip(name: string)
    ensures ' ' in name ==> FirstName(name) + " " + LastName(name) == name
    ensures ' ' !in name ==> FirstName(name) == name && LastName(name) == ""
  {
    if ' ' in name {
      SplitAtFirst(name, ' ');
    }
  }

  /** The body sent to `ApiService.register`, the email doubling as the username. */
  function Payload(form: RegisterForm): RegisterPayload
  {
    RegisterPayload(form.email, form.email, FirstName(form.name), LastName(form.name), form.phone,
                    form.password, form.confirmPassword)
  }

  /**
   * The payload carries the form's fields, the email twice, and a name that
   * the first and last name give back when joined by a space.
   */
  lemma PayloadCarriesForm(form: RegisterForm)
    ensures Payload(form).username == form.email && Payload(form).email == form.email
    ensures Payload(form).phone == form.phone && Payload(form).password == form.password
    ensures Payload(form).passwordConfirm == form.confirmPassword
    ensures ' ' in form.name ==> Payload(form).firstName + " " + Payload(form).lastName == form.name
    ensures ' ' !in form.name ==> Payload(form).firstName == form.name && Payload(form).lastName == ""
  {
    NameSplitRoundTrip(form.name);
  }

  /** Storage after a successful registration: both tokens, then the serialized user. */
  function Persisted(items: map<string, string>, codec: JsonCodec, response: AuthResponse): map<string, string> {
    items[AccessTokenKey := response.tokens.access][RefreshTokenKey := response.tokens.refresh]
         [UserKey := codec.stringify(Record(response.user))]
  }

  /**
   * Registration writes the very keys the session queries read: the new user
   * is logged in, and the token read back is the one received.
   */
  lemma RegisteredUserIsLoggedIn(items: map<string, string>, codec: JsonCodec, response: AuthResponse)
    requires RoundTrips(codec, Record(response.user)) && response.tokens.access != ""
    ensures IsLoggedIn(Persisted(items, codec, response), codec)
    ensures GetCurrentUser(Persisted(items, codec, response), codec) == Record(response.user)
    ensures GetAccessToken(Persisted(items, codec, response)) == Some(response.tokens.access)
  {
  }

  class RegisterPage {
    var form: RegisterForm
    var error: string
    var isLoading: bool
    /** The `router.push` targets, in order. */
    var navigation: seq<string>

    constructor ()
      ensures form == EmptyForm && error == "" && !isLoading && navigation == []
    {
      form := EmptyForm;
      error := "";
      isLoading := false;
      navigation := [];
    }

    /** `handleChange` for the input named `field`. */
    method HandleChange(field: FormField, value: string)
      modifies this
      ensures form == WithField(old(form), field, value)
      ensures error == old(error) && isLoading == old(isLoading) && navigation == old(navigation)
    {
      form := WithField(form, field, value);
    }

    /**
     * `handleSubmit`, the register request answering `outcome`. Returns the
     * payload sent, or `None` when validation stopped the submission before
     * any request.
     */
    method HandleSubmit(store: LocalStorage, codec: JsonCodec, outcome: Outcome<AuthResponse>)
      returns (sent: Option<RegisterPayload>)
      modifies this`error, this`isLoading, this`navigation, store
      ensures ValidateForm(form) != "" ==>
                && sent == None && error == ValidateForm(form)
                && store.items == old(store.items) && navigation == old(navigation) && isLoading == old(isLoading)
      ensures ValidateForm(form) == "" ==> sent == Some(Payload(form)) && !isLoading
      ensures ValidateForm(form) == "" && outcome.Ok? ==>
                && store.items == Persisted(old(store.items), codec, outcome.value)
                && navigation == old(navigation) + ["/"] && error == ""
      ensures ValidateForm(form) == "" && !outcome.Ok? ==>
                && store.items == old(store.items) && navigation == old(navigation)
                && error == Register(outcome).error.message
    {
      var validationError := ValidateForm(form);
      if validationError != "" {
        error := validationError;
        return None;
      }
      sent := Some(Payload(form));
      Submit(store, codec, outcome);
    }

    /** The part of `handleSubmit` after validation has passed. */
    method Submit(store: LocalStorage, codec: JsonCodec, outcome: Outcome<AuthResponse>)
      modifies this`error, this`isLoading, this`navigation, store
      ensures !isLoading
      ensures outcome.Ok? ==>
                && store.items == Persisted(old(store.items), codec, outcome.value)
                && navigation == old(navigation) + ["/"] && error == ""
      ensures !outcome.Ok? ==>
                && store.items == old(store.items) && navigation == old(navigation)
                && error == Register(outcome).error.message
    {
      error := "";
      isLoading := true;
      var result := Register(outcome);
      match result {
        case Success(response) =>
          store.SetItem(AccessTokenKey, response.tokens.access);
          store.SetItem(RefreshTokenKey, response.tokens.refresh);
          store.SetItem(UserKey, codec.stringify(Record(response.user)));
          navigation := navigation + ["/"];
        case Failure(e) =>
          error := e.message;
      }
      isLoading := false;
    }
  }
}

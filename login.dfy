/** The login page: its field-change handler and its two-phase submit, which on success
    writes the session into `localStorage` and navigates to the profile. */
module Login {
  import opened Wrappers
  import Api
  import Browser
  import StoredUser

  datatype Field = Email | Password

  datatype FormData = FormData(email: string, password: string)

  const InitialForm: FormData := FormData("", "")

  /** `{...formData, [name]: value}` */
  function Update(f: FormData, field: Field, value: string): (g: FormData)
    ensures field.Email? ==> g.email == value && g.password == f.password
    ensures field.Password? ==> g.password == value && g.email == f.email
  {
    match field
    case Email => f.(email := value)
    case Password => f.(password := value)
  }

  const MissingFieldsMessage: string := "Please fill in all fields"
  const FallbackMessage: string := "Login failed. Please check your credentials."

  /** The page's only check before the call: both fields non-empty.  There is no format or
      length check on either. */
  predicate Filled(f: FormData)
  {
    f.email != "" && f.password != ""
  }

  /** How the awaited `authAPI.login` call settled: `access_token` and `user` of the reply
      body (the latter possibly absent), or the error. */
  datatype LoginReply = LoggedIn(accessToken: string, user: Option<StoredUser.UserProfile>)
                      | LoginFailed(error: Api.ApiError)

  /** The component's state: `formData`, `loading` and `error`. */
  class Component {
    var formData: FormData
    var loading: bool
    var error: string

    constructor ()
      ensures formData == InitialForm && !loading && error == ""
    {
      formData := InitialForm;
      loading := false;
      error := "";
    }

    /** The submit button's `disabled={loading}`. */
    predicate SubmitDisabled()
      reads this
    {
      loading
    }

    /** `handleChange`: one field replaced, the other kept, the error cleared. */
    method HandleChange(field: Field, value: string)
      modifies this
      ensures formData == Update(old(formData), field, value)
      ensures error == "" && loading == old(loading)
    {
      formData := Update(formData, field, value);
      error := "";
    }

    /** The synchronous part of `handleSubmit`.  With a field empty only the error is set and
        no request is returned; otherwise `loading` is set (which disables the button), the
        error cleared, and the form is sent as it is.  Storage is not touched in either case. */
    method HandleSubmit() returns (request: Option<FormData>)
      modifies this
      ensures formData == old(formData)
      ensures !Filled(formData) ==> request.None? && error == MissingFieldsMessage && loading == old(loading)
      ensures Filled(formData) ==> request == Some(formData) && loading && error == "" && SubmitDisabled()
    {
      if !Filled(formData) {
        error := MissingFieldsMessage;
        return None;
      }
      loading := true;
      error := "";
      request := Some(formData);
    }

    /** The rest of `handleSubmit` once the call settles.  Success writes `'token'` and then
        `'user'` and navigates to /profile; failure leaves storage alone and shows the
        server's detail or the fallback.  `loading` is cleared either way. */
    method Resolve(reply: LoginReply, store: Browser.Storage) returns (nav: Option<Browser.Route>)
      modifies this, store
      ensures !loading && !SubmitDisabled() && formData == old(formData)
      ensures reply.LoggedIn? ==>
        && store.items == old(store.items)[Browser.TokenKey := reply.accessToken]
                                          [Browser.UserKey := StoredUser.StoredText(reply.user)]
        && nav == Some(Browser.ProfileRoute)
        && error == old(error)
      ensures reply.LoginFailed? ==>
        && store.items == old(store.items)
        && nav.None?
        && error == Api.DetailOr(reply.error, FallbackMessage)
    {
      match reply {
        case LoggedIn(token, user) =>
          store.SetItem(Browser.TokenKey, token);
          store.SetItem(Browser.UserKey, StoredUser.StoredText(user));
          nav := Some(Browser.ProfileRoute);
        case LoginFailed(e) =>
          error := Api.DetailOr(e, FallbackMessage);
          nav := None;
      }
      loading := false;
    }
  }
}

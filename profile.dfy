/** The profile page: the session guard its mount effect runs, the edit sub-state, saving
    (two-phase, like the other pages' submits), cancelling, and logging out. */
module Profile {
  import opened Wrappers
  import Api
  import Browser
  import StoredUser

  datatype Field = FullName | Email

  datatype FormData = FormData(fullName: string, email: string)

  /** `{...formData, [name]: value}` */
  function Update(f: FormData, field: Field, value: string): (g: FormData)
    ensures field.FullName? ==> g.fullName == value && g.email == f.email
    ensures field.Email? ==> g.email == value && g.fullName == f.fullName
  {
    match field
    case FullName => f.(fullName := value)
    case Email => f.(email := value)
  }

  /** The form as pre-filled from a user object: `full_name || ''` and `email || ''`. */
  function FormFrom(u: StoredUser.UserProfile): (f: FormData)
    ensures u.fullName.Some? ==> f.fullName == u.fullName.value
    ensures u.fullName.None? ==> f.fullName == ""
    ensures u.email.Some? ==> f.email == u.email.value
    ensures u.email.None? ==> f.email == ""
  {
    FormData(OrEmpty(u.fullName), OrEmpty(u.email))
  }

  // ---------------------------------------------------------------- the session guard

  /** What the mount effect decides from the stored `'user'` entry. */
  datatype GuardOutcome =
    | Admit(user: StoredUser.UserProfile)   // parsed: show the page for this user
    | Redirect                              // absent, empty or "undefined": go to /login
    | DropUserAndRedirect                   // present but not parseable: remove 'user', go to /login

  function Guard(items: map<string, string>): GuardOutcome
  {
    if Browser.UserKey !in items || items[Browser.UserKey] == "" || items[Browser.UserKey] == "undefined"
    then Redirect
    else match StoredUser.Parse(items[Browser.UserKey])
      case Some(u) => Admit(u)
      case None => DropUserAndRedirect
  }

  /** A successful login whose reply carried a user lets the profile page in for exactly
      that user; one whose reply had no user (it stored "undefined") is sent back to /login
      without anything being removed. */
  lemma GuardAfterLogin(items: map<string, string>, token: string, u: Option<StoredUser.UserProfile>)
    ensures u.Some? ==>
      Guard(items[Browser.TokenKey := token][Browser.UserKey := StoredUser.StoredText(u)]) == Admit(u.value)
    ensures u.None? ==>
      Guard(items[Browser.TokenKey := token][Browser.UserKey := StoredUser.StoredText(u)]) == Redirect
  {
    var text := StoredUser.StoredText(u);
    if u.Some? {
      assert text != "" by {
        assert StoredUser.Parse("") == None;
      }
    }
  }

  /** After a successful save, remounting the page admits the updated user. */
  lemma GuardAfterSave(items: map<string, string>, u: StoredUser.UserProfile)
    ensures Guard(items[Browser.UserKey := StoredUser.Serialize(u)]) == Admit(u)
  {
    StoredUser.ParseSerialize(u);
    assert StoredUser.Parse("") == None;
    assert StoredUser.Parse("undefined") == None;
  }

  /** After logout, and after a corrupt entry has been dropped, the guard redirects. */
  lemma GuardAfterRemoval(items: map<string, string>)
    ensures Guard(items - {Browser.TokenKey, Browser.UserKey}) == Redirect
    ensures Guard(items - {Browser.UserKey}) == Redirect
  {
  }

  // ---------------------------------------------------------------- the component

  datatype UpdateRequest = UpdateRequest(full_name: string, email: string)

  /** How the awaited `authAPI.updateProfile` call settled: the updated user or the error. */
  datatype UpdateReply = Updated(user: StoredUser.UserProfile) | UpdateFailed(error: Api.ApiError)

  const MissingFieldsMessage: string := "Please fill in all fields"
  const SavedMessage: string := "Profile updated successfully!"
  const FallbackMessage: string := "Update failed. Please try again."

  /** The component's state: `user`, `isEditing`, `formData`, `loading`, `error`, `success`. */
  class Component {
    var user: Option<StoredUser.UserProfile>
    var isEditing: bool
    var formData: FormData
    var loading: bool
    var error: string
    var success: string

    constructor ()
      ensures user.None? && !isEditing && formData == FormData("", "")
      ensures !loading && error == "" && success == ""
    {
      user := None;
      isEditing := false;
      formData := FormData("", "");
      loading := false;
      error := "";
      success := "";
    }

    /** The mount effect: admit the stored user and pre-fill the form, or send the visitor
        to /login; an unparseable entry is removed first, and only that entry ('token'
        stays).  No other state changes. */
    method LoadSession(store: Browser.Storage) returns (nav: Option<Browser.Route>)
      modifies this, store
      ensures isEditing == old(isEditing) && loading == old(loading)
      ensures error == old(error) && success == old(success)
      ensures Guard(old(store.items)).Admit? ==>
        && user == Some(Guard(old(store.items)).user)
        && formData == FormFrom(Guard(old(store.items)).user)
        && store.items == old(store.items) && nav.None?
      ensures Guard(old(store.items)).Redirect? ==>
        user == old(user) && formData == old(formData) && store.items == old(store.items)
        && nav == Some(Browser.LoginRoute)
      ensures Guard(old(store.items)).DropUserAndRedirect? ==>
        user == old(user) && formData == old(formData)
        && store.items == old(store.items) - {Browser.UserKey}
        && nav == Some(Browser.LoginRoute)
    {
      var stored := store.GetItem(Browser.UserKey);
      if stored.Some? && stored.value != "" && stored.value != "undefined" {
        var parsed := StoredUser.Parse(stored.value);
        if parsed.Some? {
          user := parsed;
          formData := FormFrom(parsed.value);
          nav := None;
        } else {
          store.RemoveItem(Browser.UserKey);
          nav := Some(Browser.LoginRoute);
        }
      } else {
        nav := Some(Browser.LoginRoute);
      }
    }

    /** `handleChange`: one field replaced, the other kept, the error cleared. */
    method HandleChange(field: Field, value: string)
      modifies this
      ensures formData == Update(old(formData), field, value) && error == ""
      ensures user == old(user) && isEditing == old(isEditing)
      ensures loading == old(loading) && success == old(success)
    {
      formData := Update(formData, field, value);
      error := "";
    }

    /** The "Edit" button: `setIsEditing(true)` and nothing else (the form keeps whatever
        it holds). */
    method StartEditing()
      modifies this
      ensures isEditing
      ensures user == old(user) && formData == old(formData) && loading == old(loading)
      ensures error == old(error) && success == old(success)
    {
      isEditing := true;
    }

    /** The synchronous part of `handleSubmit`: an empty name or email only sets the error
        (there is no email-format check); otherwise `loading` is set, both messages are
        cleared, and the update is sent. */
    method HandleSubmit() returns (request: Option<UpdateRequest>)
      modifies this
      ensures user == old(user) && isEditing == old(isEditing) && formData == old(formData)
      ensures (formData.fullName == "" || formData.email == "") ==>
        request.None? && error == MissingFieldsMessage
        && loading == old(loading) && success == old(success)
      ensures (formData.fullName != "" && formData.email != "") ==>
        request == Some(UpdateRequest(formData.fullName, formData.email))
        && loading && error == "" && success == ""
    {
      if formData.fullName == "" || formData.email == "" {
        error := MissingFieldsMessage;
        return None;
      }
      loading := true;
      error := "";
      success := "";
      request := Some(UpdateRequest(formData.fullName, formData.email));
    }

    /** The rest of `handleSubmit` once the call settles.  Success overwrites `'user'` (and
        only it), adopts the returned user, leaves edit mode and sets the success message;
        failure changes neither storage, `user` nor `isEditing` and shows the mapped error.
        `loading` is cleared either way. */
    method Resolve(reply: UpdateReply, store: Browser.Storage)
      modifies this, store
      ensures !loading && formData == old(formData)
      ensures reply.Updated? ==>
        && store.items == old(store.items)[Browser.UserKey := StoredUser.Serialize(reply.user)]
        && user == Some(reply.user) && !isEditing
        && success == SavedMessage && error == old(error)
      ensures reply.UpdateFailed? ==>
        && store.items == old(store.items)
        && user == old(user) && isEditing == old(isEditing)
        && error == Api.DetailOr(reply.error, FallbackMessage) && success == old(success)
    {
      match reply {
        case Updated(u) =>
          store.SetItem(Browser.UserKey, StoredUser.Serialize(u));
          user := Some(u);
          success := SavedMessage;
          isEditing := false;
        case UpdateFailed(e) =>
          error := Api.DetailOr(e, FallbackMessage);
      }
      loading := false;
    }

    /** The timer armed after a successful save, when it fires: the message is cleared. */
    method SuccessTimerElapsed()
      modifies this
      ensures success == ""
      ensures user == old(user) && isEditing == old(isEditing) && formData == old(formData)
      ensures loading == old(loading) && error == old(error)
    {
      success := "";
    }

    /** `handleCancel` (only reachable while a user is shown): the form is restored from
        `user`, edit mode is left, the error cleared; the success message is untouched. */
    method HandleCancel()
      requires user.Some?
      modifies this
      ensures user == old(user) && loading == old(loading) && success == old(success)
      ensures formData == FormFrom(user.value) && !isEditing && error == ""
    {
      formData := FormFrom(user.value);
      isEditing := false;
      error := "";
    }

    /** `handleLogout`: on confirmation both session keys are removed and the page goes to
        /login; declining changes nothing.  The component's own state is never touched. */
    method HandleLogout(confirmed: bool, store: Browser.Storage) returns (nav: Option<Browser.Route>)
      modifies store
      ensures confirmed ==>
        store.items == old(store.items) - {Browser.TokenKey, Browser.UserKey} && nav == Some(Browser.LoginRoute)
      ensures !confirmed ==> store.items == old(store.items) && nav.None?
    {
      if confirmed {
        store.RemoveItem(Browser.TokenKey);
        store.RemoveItem(Browser.UserKey);
        nav := Some(Browser.LoginRoute);
      } else {
        nav := None;
      }
    }
  }
}

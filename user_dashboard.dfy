/** The seller's dashboard (src/pages/protected/UserDashboard.jsx): the guard that sends a
    visitor without a stored token to the login page, the profile form state, and the
    Active/Closed status button of each listing. */
module UserDashboard {

  import opened Common

  const AccessTokenKey: string := "accessToken"
  const LoginPath: string := "/login"
  const FileTypeKey: string := "file_type"
  const FileUrlKey: string := "file_url"
  const FirstNameKey: string := "first_name"
  const LastNameKey: string := "last_name"

  const ActiveLabel: string := "Active"
  const ClosedLabel: string := "Closed"

  // ---------------------------------------------------------------------------------------
  // Mount guard

  datatype MountAction = RedirectToLogin | FetchData

  /** `if (!localStorage.getItem('accessToken')) navigate('/login')`. */
  function OnMount(storage: map<string, string>): (m: MountAction)
    ensures m == RedirectToLogin <==> AccessTokenKey !in storage || storage[AccessTokenKey] == ""
  {
    if Truthy(Lookup(storage, AccessTokenKey)) then FetchData else RedirectToLogin
  }

  // ---------------------------------------------------------------------------------------
  // Status button

  /** What `handleUpdateStatus` does for the button's current text: warn that the listing has
      expired, or ask for the opposite of the current state. */
  datatype StatusDecision = ExpiredWarning | UpdateRequest(active: bool)

  function DecideStatus(text: string, timeLeftSeconds: int): (d: StatusDecision)
    ensures d == ExpiredWarning <==> text == ClosedLabel && timeLeftSeconds < 1
    ensures text == ActiveLabel ==> d == UpdateRequest(false)
    ensures d.UpdateRequest? && text != ActiveLabel ==> d.active
  {
    var active := text != ActiveLabel;
    if text == ClosedLabel && timeLeftSeconds < 1 then ExpiredWarning else UpdateRequest(active)
  }

  /** The label after a successful request. */
  function Flipped(text: string): (r: string)
    ensures r == ClosedLabel <==> text == ActiveLabel
    ensures r == ActiveLabel <==> text != ActiveLabel
  {
    if text == ActiveLabel then ClosedLabel else ActiveLabel
  }

  datatype Colour = Red | Blue | Unstyled

  /** The button, whose text and colour the handler rewrites in place. */
  class StatusButton {
    var text: string
    var colour: Colour

    constructor (initial: string)
      ensures text == initial && colour == Unstyled
    {
      text := initial;
      colour := Unstyled;
    }

    /** A click, with the outcome of the `updateListing` request when one is sent: on success
        the text flips between `Active` and `Closed`, otherwise nothing changes. */
    method HandleUpdateStatus(timeLeftSeconds: int, success: bool) returns (d: StatusDecision)
      modifies this
      ensures d == DecideStatus(old(text), timeLeftSeconds)
      ensures d.UpdateRequest? && success ==>
                text == Flipped(old(text)) && colour == (if old(text) == ActiveLabel then Red else Blue)
      ensures !(d.UpdateRequest? && success) ==> text == old(text) && colour == old(colour)
    {
      d := DecideStatus(text, timeLeftSeconds);
      if d.UpdateRequest? && success {
        if text == ActiveLabel {
          text, colour := ClosedLabel, Red;
        } else {
          text, colour := ActiveLabel, Blue;
        }
      }
    }
  }

  /** Two successful clicks on a button that reads `Active` or `Closed` bring it back. */
  lemma FlipTwice(text: string)
    requires text == ActiveLabel || text == ClosedLabel
    ensures Flipped(Flipped(text)) == text
  {
  }

  /** A closing-time check stops only the reopening of a listing that has run out of time; closing
      is always requested. */
  lemma {:induction false} ExpiredOnlyWhenReopening(text: string, timeLeftSeconds: int)
    ensures DecideStatus(text, timeLeftSeconds) == ExpiredWarning ==>
            text != ActiveLabel && DecideStatus(text, 1).UpdateRequest? && DecideStatus(text, 1).active
  {
    assert ClosedLabel != ActiveLabel;
  }

  // ---------------------------------------------------------------------------------------
  // Profile form

  /** The form state on mount. */
  const EmptyProfile: map<string, FormValue> :=
    map[FirstNameKey := Text(""), LastNameKey := Text(""), FileKey := Null, FileTypeKey := Null,
        FileUrlKey := Text("")]

  class ProfileForm {
    var userData: map<string, FormValue>

    constructor ()
      ensures userData == EmptyProfile
    {
      userData := EmptyProfile;
    }

    /** The fetched profile (`None` for a missing property) fills the names and the avatar, or
        the bundled default picture. The mount effect spreads the form it captured on mount,
        `EmptyProfile`, so anything typed before the profile arrives is replaced. */
    method OnProfileLoaded(first: Option<string>, last: Option<string>, avatar: Option<string>, defaultAvatar: string)
      modifies this
      ensures userData == EmptyProfile[FirstNameKey := if first.Some? then Text(first.value) else Null]
                                      [LastNameKey := if last.Some? then Text(last.value) else Null]
                                      [FileUrlKey := Text(if Truthy(avatar) then avatar.value else defaultAvatar)]
      ensures FileKey in userData && userData[FileKey] == Null
    {
      userData := EmptyProfile[FirstNameKey := if first.Some? then Text(first.value) else Null]
                              [LastNameKey := if last.Some? then Text(last.value) else Null]
                              [FileUrlKey := Text(if Truthy(avatar) then avatar.value else defaultAvatar)];
    }

    /** `handleChange`; an empty file list throws and stores nothing. */
    method HandleChange(name: string, value: string, files: Option<seq<File>>) returns (ok: bool)
      modifies this
      ensures ok == ChangedForm(old(userData), name, value, files).Some?
      ensures ok ==> userData == ChangedForm(old(userData), name, value, files).value
      ensures !ok ==> userData == old(userData)
    {
      var r := ChangedForm(userData, name, value, files);
      ok := r.Some?;
      if ok {
        userData := r.value;
      }
    }

    /** `submitHandler` up to the dispatch: the `file` entry is deleted from the form state
        itself, and what remains is sent. */
    method SubmitProfile() returns (payload: map<string, FormValue>, file: Option<FormValue>)
      modifies this
      ensures payload == old(userData) - {FileKey} && userData == payload
      ensures FileKey !in payload
      ensures file == LookupValue(old(userData), FileKey)
    {
      file := if FileKey in userData then Some(userData[FileKey]) else None;
      userData := userData - {FileKey};
      payload := userData;
    }
  }
}

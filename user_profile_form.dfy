/** The user profile form, used both to create a user (admin, create mode) and to
    update a profile (update mode): field updates, the ordered validator, the
    payload and endpoint of the save request, and the submit handler. */
module UserProfileForm {
  import opened Js

  /** A form value as JavaScript holds it: undefined, a string, or a selected
      File object (identified by a handle). */
  datatype Value = Undefined | Str(s: string) | File(handle: nat)

  /** A possibly-undefined string as a form value. */
  function Text(s: Option<string>): Value {
    if s.Some? then Str(s.value) else Undefined
  }

  /** The form record. Every text field may be undefined (the create form has no
      `currentPassword`); `profileImageUrl` holds a URL string or a selected file. */
  datatype FormData = FormData(
    name: Option<string>,
    username: Option<string>,
    email: Option<string>,
    role: Option<string>,
    currentPassword: Option<string>,
    newPassword: Option<string>,
    bio: Option<string>,
    profileImageUrl: Value)

  /** The `name` attribute of the form's inputs. */
  datatype Field = Name | Username | Email | Role | CurrentPassword | NewPassword | Bio | ProfileImageUrl

  /** The text held in a text field. */
  function TextField(fd: FormData, f: Field): Option<string>
    requires f != ProfileImageUrl
  {
    match f
    case Name => fd.name
    case Username => fd.username
    case Email => fd.email
    case Role => fd.role
    case CurrentPassword => fd.currentPassword
    case NewPassword => fd.newPassword
    case Bio => fd.bio
  }

  /** `a` and `b` agree on every field except possibly `f`. */
  predicate SameExcept(a: FormData, b: FormData, f: Field) {
    && (f != Name ==> a.name == b.name)
    && (f != Username ==> a.username == b.username)
    && (f != Email ==> a.email == b.email)
    && (f != Role ==> a.role == b.role)
    && (f != CurrentPassword ==> a.currentPassword == b.currentPassword)
    && (f != NewPassword ==> a.newPassword == b.newPassword)
    && (f != Bio ==> a.bio == b.bio)
    && (f != ProfileImageUrl ==> a.profileImageUrl == b.profileImageUrl)
  }

  /** `handleChange`: the changed input's field takes the input's value; the
      image input takes its first selected file (undefined when none is
      selected). Every other field keeps its value. */
  function HandleChange(prev: FormData, field: Field, value: string, files: seq<nat>): (r: FormData)
    ensures field == ProfileImageUrl ==> r.profileImageUrl == (if files == [] then Undefined else File(files[0]))
    ensures field != ProfileImageUrl ==> TextField(r, field) == Some(value)
    ensures SameExcept(prev, r, field)
  {
    match field
    case ProfileImageUrl => prev.(profileImageUrl := if files == [] then Undefined else File(files[0]))
    case Name => prev.(name := Some(value))
    case Username => prev.(username := Some(value))
    case Email => prev.(email := Some(value))
    case Role => prev.(role := Some(value))
    case CurrentPassword => prev.(currentPassword := Some(value))
    case NewPassword => prev.(newPassword := Some(value))
    case Bio => prev.(bio := Some(value))
  }

  /** `!s?.trim()`: undefined, or nothing but whitespace. */
  predicate Blank(s: Option<string>) {
    s.None? || Trim(s.value) == ""
  }

  datatype Verdict = Accept | Reject(message: string)

  const NameRequired := "Name is required"
  const UsernameRequired := "Username is required"
  const EmailRequired := "Email is required"
  const PasswordRequired := "Password is required"
  const CurrentPasswordRequired := "Current password is required to set new password"

  /** `validateForm`: the checks run in order and the first that fails decides
      the message. */
  function ValidateForm(fd: FormData, isCreateMode: bool): (r: Verdict)
    ensures Blank(fd.name) ==> r == Reject(NameRequired)
    ensures !Blank(fd.name) && Blank(fd.username) ==> r == Reject(UsernameRequired)
    ensures !Blank(fd.name) && !Blank(fd.username) && Blank(fd.email) ==> r == Reject(EmailRequired)
    ensures r.Reject? && !Blank(fd.name) && !Blank(fd.username) && !Blank(fd.email) ==>
              if isCreateMode then r.message == PasswordRequired && !Truthy(fd.newPassword)
              else r.message == CurrentPasswordRequired && Truthy(fd.newPassword) && !Truthy(fd.currentPassword)
    ensures r == Accept ==> (isCreateMode ==> Truthy(fd.newPassword))
    ensures r == Accept ==> (!isCreateMode && Truthy(fd.newPassword) ==> Truthy(fd.currentPassword))
  {
    if Blank(fd.name) then Reject(NameRequired)
    else if Blank(fd.username) then Reject(UsernameRequired)
    else if Blank(fd.email) then Reject(EmailRequired)
    else if isCreateMode && !Truthy(fd.newPassword) then Reject(PasswordRequired)
    else if !isCreateMode && Truthy(fd.newPassword) && !Truthy(fd.currentPassword) then Reject(CurrentPasswordRequired)
    else Accept
  }

  /** A field holds at least one character that is not whitespace. */
  predicate Filled(s: Option<string>) {
    s.Some? && !AllWhitespace(s.value)
  }

  /** What an acceptable form is, stated independently of the check order. */
  predicate ChecksPass(fd: FormData, isCreateMode: bool) {
    && Filled(fd.name) && Filled(fd.username) && Filled(fd.email)
    && (isCreateMode ==> Truthy(fd.newPassword))
    && (!isCreateMode && Truthy(fd.newPassword) ==> Truthy(fd.currentPassword))
  }

  /** The validator accepts exactly the forms that pass every check. */
  lemma ValidateFormAcceptsIffChecksPass(fd: FormData, isCreateMode: bool)
    ensures ValidateForm(fd, isCreateMode) == Accept <==> ChecksPass(fd, isCreateMode)
  {
    BlankIffNotFilled(fd.name);
    BlankIffNotFilled(fd.username);
    BlankIffNotFilled(fd.email);
  }

  /** A field is blank to the validator exactly when it is not filled. */
  lemma BlankIffNotFilled(s: Option<string>)
    ensures Blank(s) <==> !Filled(s)
  {
    if s.Some? {
      TrimEmptyIffAllWhitespace(s.value);
    }
  }

  /** The keys of the request body. */
  datatype Key =
    | NameKey | UsernameKey | EmailKey | BioKey | ImageKey
    | PasswordKey | RoleKey | CurrentPasswordKey | NewPasswordKey

  /** The JSON name of a key. */
  function KeyName(k: Key): string {
    match k
    case NameKey => "name"
    case UsernameKey => "username"
    case EmailKey => "email"
    case BioKey => "bio"
    case ImageKey => "profileImageUrl"
    case PasswordKey => "password"
    case RoleKey => "role"
    case CurrentPasswordKey => "currentPassword"
    case NewPasswordKey => "newPassword"
  }

  /** The keys `handleSubmit` puts in the request body. */
  function PayloadKeys(fd: FormData, isCreateMode: bool): set<Key> {
    {NameKey, UsernameKey, EmailKey}
    + (if !isCreateMode then {BioKey, ImageKey} else {})
    + (if isCreateMode && Truthy(fd.newPassword) then {PasswordKey} else {})
    + (if isCreateMode then {RoleKey} else {})
    + (if !isCreateMode && Truthy(fd.currentPassword) && Truthy(fd.newPassword) then {CurrentPasswordKey, NewPasswordKey} else {})
  }

  /** `p` is the request body for the form in the given mode, where `image` is the
      profile image value to send. */
  predicate IsPayload(p: map<Key, Value>, fd: FormData, isCreateMode: bool, image: Value) {
    && p.Keys == PayloadKeys(fd, isCreateMode)
    && NameKey in p && p[NameKey] == Text(fd.name)
    && UsernameKey in p && p[UsernameKey] == Text(fd.username)
    && EmailKey in p && p[EmailKey] == Text(fd.email)
    && (BioKey in p ==> p[BioKey] == Text(fd.bio))
    && (ImageKey in p ==> p[ImageKey] == image)
    && (PasswordKey in p ==> p[PasswordKey] == Text(fd.newPassword))
    && (RoleKey in p ==> p[RoleKey] == Str(OrElse(fd.role, "member")))
    && (CurrentPasswordKey in p ==> p[CurrentPasswordKey] == Text(fd.currentPassword))
    && (NewPasswordKey in p ==> p[NewPasswordKey] == Text(fd.newPassword))
  }

  /** The request body of `handleSubmit`, built field by field: name, username and
      email always; bio and image only in update mode; in create mode the password
      when one is given and the role (default "member"); in update mode both
      passwords only when both are given. */
  method BuildPayload(fd: FormData, isCreateMode: bool, image: Value) returns (payload: map<Key, Value>)
    ensures IsPayload(payload, fd, isCreateMode, image)
  {
    payload := map[NameKey := Text(fd.name), UsernameKey := Text(fd.username), EmailKey := Text(fd.email)];
    if !isCreateMode {
      payload := payload[BioKey := Text(fd.bio)];
      payload := payload[ImageKey := image];
    }
    if isCreateMode {
      if Truthy(fd.newPassword) {
        payload := payload[PasswordKey := Text(fd.newPassword)];
      }
      payload := payload[RoleKey := Str(OrElse(fd.role, "member"))];
    } else {
      if Truthy(fd.currentPassword) && Truthy(fd.newPassword) {
        payload := payload[CurrentPasswordKey := Text(fd.currentPassword)];
        payload := payload[NewPasswordKey := Text(fd.newPassword)];
      }
    }
  }

  /** A form that passes the checks sends its password: in create mode always, in
      update mode together with the current password whenever a new one is given. */
  lemma AcceptedPasswordIsSent(fd: FormData, isCreateMode: bool, image: Value, p: map<Key, Value>)
    requires ChecksPass(fd, isCreateMode)
    requires IsPayload(p, fd, isCreateMode, image)
    ensures isCreateMode ==> PasswordKey in p && p[PasswordKey] == Str(fd.newPassword.value) && fd.newPassword.value != ""
    ensures !isCreateMode && Truthy(fd.newPassword) ==>
              CurrentPasswordKey in p && NewPasswordKey in p && p[CurrentPasswordKey] != Str("")
    ensures !isCreateMode ==> PasswordKey !in p && RoleKey !in p
    ensures isCreateMode ==> BioKey !in p && ImageKey !in p && CurrentPasswordKey !in p
  {
    if isCreateMode {
      assert PasswordKey in PayloadKeys(fd, isCreateMode);
    } else if Truthy(fd.newPassword) {
      assert CurrentPasswordKey in PayloadKeys(fd, isCreateMode);
    }
  }

  /** The save endpoints. */
  datatype Endpoint = CreateUser | UpdateAdmin(userId: string) | UpdateUser(userId: string)

  /** Create mode posts to the create path; otherwise the admin update path is
      used exactly when an admin edits another user. */
  function SubmitEndpoint(isCreateMode: bool, isAdminEditingOtherUser: bool, editableUserId: string): (e: Endpoint)
    ensures e.CreateUser? <==> isCreateMode
    ensures e.UpdateAdmin? <==> !isCreateMode && isAdminEditingOtherUser
    ensures !e.CreateUser? ==> e.userId == editableUserId
  {
    if isCreateMode then CreateUser
    else if isAdminEditingOtherUser then UpdateAdmin(editableUserId)
    else UpdateUser(editableUserId)
  }

  /** The form after a successful save: both password fields emptied. */
  function ClearPasswords(fd: FormData): (r: FormData)
    ensures r.currentPassword == Some("") && r.newPassword == Some("")
    ensures r.name == fd.name && r.username == fd.username && r.email == fd.email && r.role == fd.role
    ensures r.bio == fd.bio && r.profileImageUrl == fd.profileImageUrl
  {
    fd.(currentPassword := Some(""), newPassword := Some(""))
  }

  datatype ToastKind = Success | Error

  /** What the form does outside its own state: toasts, requests, callbacks. */
  datatype Effect =
    | Toast(kind: ToastKind, message: string)
    | UploadImage(file: nat)
    | Send(endpoint: Endpoint, payload: map<Key, Value>)
    | UpdateSuccess(user: Option<UserRecord>)
    | CloseForm

  /** Outcome of the image upload: the body's `imageUrl`, or a thrown error
      carrying the server's message, if any. */
  datatype UploadOutcome = Uploaded(imageUrl: Option<string>) | UploadFailed(serverMessage: Option<string>)

  /** Outcome of the save request: the body's `message` and `user`, or a thrown
      error carrying the server's message, if any. */
  datatype SaveOutcome = Saved(message: Option<string>, user: Option<UserRecord>) | SaveFailed(serverMessage: Option<string>)

  /** Only update mode uploads, and only when the image field holds a file. */
  predicate NeedsUpload(fd: FormData, isCreateMode: bool) {
    !isCreateMode && fd.profileImageUrl.File?
  }

  /** The image value the payload carries. */
  function SentImage(fd: FormData, isCreateMode: bool, upload: UploadOutcome): Value {
    if NeedsUpload(fd, isCreateMode) && upload.Uploaded? then Text(upload.imageUrl) else fd.profileImageUrl
  }

  function FailureText(isCreateMode: bool, serverMessage: Option<string>): string {
    OrElse(serverMessage, if isCreateMode then "Creation failed." else "Update failed.")
  }

  function SuccessText(isCreateMode: bool, message: Option<string>): string {
    OrElse(message, if isCreateMode then "User created successfully!" else "Profile updated successfully!")
  }

  /** The effects after the save request settles. */
  function Settled(isCreateMode: bool, hasOnUpdateSuccess: bool, hasOnClose: bool, response: SaveOutcome): seq<Effect> {
    match response
    case Saved(message, user) =>
      [Toast(Success, SuccessText(isCreateMode, message))]
      + (if hasOnUpdateSuccess then [UpdateSuccess(user)] else [])
      + (if isCreateMode && hasOnClose then [CloseForm] else [])
    case SaveFailed(serverMessage) =>
      [Toast(Error, FailureText(isCreateMode, serverMessage))]
  }

  class ProfileForm {
    /** The form record (state owned by the parent, updated through `setFormData`). */
    var formData: FormData
    var loading: bool
    /** The effects issued so far, in order. */
    var effects: seq<Effect>
    const editableUserId: string
    const isAdminEditingOtherUser: bool
    const isCreateMode: bool
    /** Whether the `onUpdateSuccess` and `onClose` callbacks were passed. */
    const hasOnUpdateSuccess: bool
    const hasOnClose: bool

    /** The form's props; a parent that omits `isCreateMode` passes `false`, its
        default value. */
    constructor (formData: FormData, editableUserId: string, isAdminEditingOtherUser: bool,
                 isCreateMode: bool, hasOnUpdateSuccess: bool, hasOnClose: bool)
      ensures this.formData == formData && !loading && effects == []
      ensures this.editableUserId == editableUserId && this.isAdminEditingOtherUser == isAdminEditingOtherUser
      ensures this.isCreateMode == isCreateMode
      ensures this.hasOnUpdateSuccess == hasOnUpdateSuccess && this.hasOnClose == hasOnClose
    {
      this.formData := formData;
      loading := false;
      effects := [];
      this.editableUserId := editableUserId;
      this.isAdminEditingOtherUser := isAdminEditingOtherUser;
      this.isCreateMode := isCreateMode;
      this.hasOnUpdateSuccess := hasOnUpdateSuccess;
      this.hasOnClose := hasOnClose;
    }

    /** `handleSubmit`. A rejected form only shows the validator's message and
        changes nothing else; an accepted one is saved. */
    method HandleSubmit(upload: UploadOutcome, response: SaveOutcome)
      modifies this
      ensures ValidateForm(old(formData), isCreateMode).Reject? ==>
                && formData == old(formData) && loading == old(loading)
                && effects == old(effects) + [Toast(Error, ValidateForm(old(formData), isCreateMode).message)]
      ensures ValidateForm(old(formData), isCreateMode).Accept? ==> SavedAs(old(formData), old(effects), upload, response)
    {
      var verdict := ValidateForm(formData, isCreateMode);
      if verdict.Reject? {
        effects := effects + [Toast(Error, verdict.message)];
        return;
      }
      Save(upload, response);
    }

    /** The state after `handleSubmit` saved the form `fd` with the given outcomes:
        a selected image is uploaded first (update mode); an upload error ends the
        submit with its message; otherwise the payload goes to the endpoint, and on
        success both passwords are cleared and the callbacks run. Loading is off. */
    ghost predicate SavedAs(fd: FormData, before: seq<Effect>, upload: UploadOutcome, response: SaveOutcome)
      reads this
    {
      var pre := before + (if NeedsUpload(fd, isCreateMode) then [UploadImage(fd.profileImageUrl.handle)] else []);
      && !loading
      && (NeedsUpload(fd, isCreateMode) && upload.UploadFailed? ==>
            formData == fd && effects == pre + [Toast(Error, FailureText(isCreateMode, upload.serverMessage))])
      && (!(NeedsUpload(fd, isCreateMode) && upload.UploadFailed?) ==>
            && |effects| > |pre| && effects[..|pre|] == pre
            && effects[|pre|].Send?
            && effects[|pre|].endpoint == SubmitEndpoint(isCreateMode, isAdminEditingOtherUser, editableUserId)
            && IsPayload(effects[|pre|].payload, fd, isCreateMode, SentImage(fd, isCreateMode, upload))
            && effects[|pre| + 1..] == Settled(isCreateMode, hasOnUpdateSuccess, hasOnClose, response)
            && formData == (if response.Saved? then ClearPasswords(fd) else fd))
    }

    /** The part of `handleSubmit` after validation succeeded. */
    method Save(upload: UploadOutcome, response: SaveOutcome)
      modifies this
      ensures SavedAs(old(formData), old(effects), upload, response)
    {
      loading := true;
      var profileImageUrl, failed := ResolveImage(upload);
      if failed {
        loading := false;
        return;
      }
      var payload := BuildPayload(formData, isCreateMode, profileImageUrl);
      var endpoint := SubmitEndpoint(isCreateMode, isAdminEditingOtherUser, editableUserId);
      effects := effects + [Send(endpoint, payload)];
      ghost var sent := effects;
      Settle(response);
      assert effects[..|sent|] == sent;
      assert effects[|sent| - 1] == Send(endpoint, payload);
      loading := false;
    }

    /** The image value to send: a file selected in update mode is uploaded and
        replaced by the returned URL; an upload error shows its message and ends
        the submit (`failed`). */
    method ResolveImage(upload: UploadOutcome) returns (image: Value, failed: bool)
      modifies this`effects
      ensures failed <==> NeedsUpload(formData, isCreateMode) && upload.UploadFailed?
      ensures !failed ==> image == SentImage(formData, isCreateMode, upload)
      ensures effects == old(effects)
                         + (if NeedsUpload(formData, isCreateMode) then [UploadImage(formData.profileImageUrl.handle)] else [])
                         + (if failed then [Toast(Error, FailureText(isCreateMode, upload.serverMessage))] else [])
    {
      image := formData.profileImageUrl;
      failed := false;
      if !isCreateMode && image.File? {
        effects := effects + [UploadImage(image.handle)];
        match upload {
          case Uploaded(imageUrl) =>
            image := Text(imageUrl);
          case UploadFailed(serverMessage) =>
            effects := effects + [Toast(Error, FailureText(isCreateMode, serverMessage))];
            failed := true;
        }
      }
    }

    /** What follows the save request: a toast, and on success the cleared
        passwords and the callbacks. */
    method Settle(response: SaveOutcome)
      modifies this`effects, this`formData
      ensures effects == old(effects) + Settled(isCreateMode, hasOnUpdateSuccess, hasOnClose, response)
      ensures formData == (if response.Saved? then ClearPasswords(old(formData)) else old(formData))
    {
      match response {
        case Saved(message, user) =>
          effects := effects + [Toast(Success, SuccessText(isCreateMode, message))];
          formData := formData.(currentPassword := Some(""), newPassword := Some(""));
          if hasOnUpdateSuccess {
            effects := effects + [UpdateSuccess(user)];
          }
          if isCreateMode && hasOnClose {
            effects := effects + [CloseForm];
          }
        case SaveFailed(serverMessage) =>
          effects := effects + [Toast(Error, FailureText(isCreateMode, serverMessage))];
      }
    }
  }
}

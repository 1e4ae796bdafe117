/** The admin's "Create New User" dialog: the blank form record, its reset on
    close and after a user is created, and the embedded profile form in create
    mode. */
module CreateUser {
  import opened Js
  import opened UserProfileForm

  /** The blank record: every field "" except `role`, which is "member"; there is
      no `currentPassword` field. */
  function BlankForm(): (f: FormData)
    ensures f.name == Some("") && f.username == Some("") && f.email == Some("")
    ensures f.newPassword == Some("") && f.bio == Some("") && f.profileImageUrl == Str("")
    ensures f.role == Some("member") && f.currentPassword == None
  {
    FormData(
      name := Some(""), username := Some(""), email := Some(""), role := Some("member"),
      currentPassword := None, newPassword := Some(""), bio := Some(""), profileImageUrl := Str(""))
  }

  /** A freshly reset dialog cannot be submitted: the create-mode validator
      rejects the blank record at its first check. */
  lemma BlankFormIsRejected()
    ensures ValidateForm(BlankForm(), true) == Reject(NameRequired)
    ensures !ChecksPass(BlankForm(), true)
  {
    assert Trim("") == "";
  }

  /** What the dialog passes to the embedded profile form. */
  datatype EmbeddedForm = EmbeddedForm(formData: FormData, isCreateMode: bool)

  /** The dialog renders nothing when closed; when open it embeds the profile form
      on its own record, always in create mode. */
  function Render(isOpen: bool, formData: FormData): (r: Option<EmbeddedForm>)
    ensures r.None? <==> !isOpen
    ensures r.Some? ==> r.value.isCreateMode && r.value.formData == formData
  {
    if !isOpen then None else Some(EmbeddedForm(formData, true))
  }

  datatype Effect = Closed | UserCreated(user: Option<UserRecord>)

  class CreateUserDialog {
    var formData: FormData
    /** The `onClose` and `onUserCreated` calls made so far. */
    var effects: seq<Effect>
    /** Whether the `onUserCreated` callback was passed. */
    const hasOnUserCreated: bool

    constructor (hasOnUserCreated: bool)
      ensures formData == BlankForm() && effects == [] && this.hasOnUserCreated == hasOnUserCreated
    {
      formData := BlankForm();
      effects := [];
      this.hasOnUserCreated := hasOnUserCreated;
    }

    /** `handleClose`: resets the record, then calls `onClose`. */
    method HandleClose()
      modifies this`formData, this`effects
      ensures formData == BlankForm() && effects == old(effects) + [Closed]
    {
      formData := BlankForm();
      effects := effects + [Closed];
    }

    /** `handleUserCreated`: resets the record, then passes the new user on when
        `onUserCreated` was given. */
    method HandleUserCreated(newUser: Option<UserRecord>)
      modifies this`formData, this`effects
      ensures formData == BlankForm()
      ensures effects == old(effects) + (if hasOnUserCreated then [UserCreated(newUser)] else [])
    {
      formData := BlankForm();
      if hasOnUserCreated {
        effects := effects + [UserCreated(newUser)];
      }
    }
  }
}

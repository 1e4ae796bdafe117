/** The sign-up page: ordered input checks, the optional profile picture upload,
    the register request and the error it shows. */
module SignUp {
  import opened Js

  const FullNameRequired := "Please enter full name."
  const UsernameRequired := "Please enter unique username."
  const InvalidEmail := "Please enter a valid email address."
  const PasswordRequired := "Please enter the password."
  const UnexpectedError := "An unexpected error occured. Please try some time later."

  /** The message of the first failing check of `handleSignUp`, if any. */
  function FirstSignUpError(fullname: string, username: string, email: string, password: string,
                            validateEmail: string -> bool): (r: Option<string>)
    ensures r.None? <==> fullname != "" && username != "" && validateEmail(email) && password != ""
    ensures fullname == "" ==> r == Some(FullNameRequired)
    ensures fullname != "" && username == "" ==> r == Some(UsernameRequired)
    ensures fullname != "" && username != "" && !validateEmail(email) ==> r == Some(InvalidEmail)
    ensures fullname != "" && username != "" && validateEmail(email) && password == "" ==> r == Some(PasswordRequired)
  {
    if fullname == "" then Some(FullNameRequired)
    else if username == "" then Some(UsernameRequired)
    else if !validateEmail(email) then Some(InvalidEmail)
    else if password == "" then Some(PasswordRequired)
    else None
  }

  /** The body of the register request. */
  datatype RegisterPayload = RegisterPayload(
    name: string,
    username: string,
    email: string,
    password: string,
    bio: string,
    profileImageUrl: string,
    adminInviteToken: string)

  /** Outcome of `uploadImage`: its `imageUrl`, or a thrown error carrying the
      server's message, if any. */
  datatype UploadOutcome = Uploaded(imageUrl: Option<string>) | UploadFailed(serverMessage: Option<string>)

  /** Outcome of the register request: the body's `message`, or a thrown error
      carrying the server's message, if any. */
  datatype RegisterOutcome = Registered(message: Option<string>) | RegisterFailed(serverMessage: Option<string>)

  datatype Effect =
    | UploadImage(file: nat)
    | Register(payload: RegisterPayload)
    | Toast(message: Option<string>)
    | Navigate(path: string)

  /** The error a failed request shows: the server's message when there is one,
      the fixed text otherwise. It is never empty, so the error box always shows. */
  function RequestErrorText(serverMessage: Option<string>): (r: string)
    ensures r != ""
    ensures Truthy(serverMessage) ==> r == serverMessage.value
    ensures !Truthy(serverMessage) ==> r == UnexpectedError
  {
    if serverMessage.Some? && serverMessage.value != "" then serverMessage.value else UnexpectedError
  }

  /** The `profileImageUrl` sent: "" without a picture, otherwise the upload's
      `imageUrl` or "" when it has none. */
  function ImageUrlSent(profilePic: Option<nat>, upload: UploadOutcome): (r: string)
    requires profilePic.Some? ==> upload.Uploaded?
    ensures profilePic.None? ==> r == ""
    ensures profilePic.Some? && Truthy(upload.imageUrl) ==> r == upload.imageUrl.value
    ensures profilePic.Some? && !Truthy(upload.imageUrl) ==> r == ""
  {
    if profilePic.Some? then OrElse(upload.imageUrl, "") else ""
  }

  class SignUpPage {
    /** The selected picture (a file handle), if any. */
    var profilePic: Option<nat>
    var fullname: string
    var username: string
    var email: string
    var bio: string
    var password: string
    var adminInviteToken: string
    var loading: bool
    /** The error shown; None is the initial `null`. */
    var error: Option<string>
    var effects: seq<Effect>

    constructor ()
      ensures profilePic == None && fullname == "" && username == "" && email == ""
      ensures bio == "" && password == "" && adminInviteToken == ""
      ensures !loading && error == None && effects == []
    {
      profilePic := None;
      fullname, username, email := "", "", "";
      bio, password, adminInviteToken := "", "", "";
      loading := false;
      error := None;
      effects := [];
    }

    /** `handleSignUp`. The first failing check sets its message, turns loading off
        and sends nothing. Otherwise the picture (if any) is uploaded and the
        register request sent; an error shows the server's message or the fixed
        text. On this path loading stays on, since nothing turns it off. */
    method HandleSignUp(validateEmail: string -> bool, upload: UploadOutcome, register: RegisterOutcome)
      modifies this`loading, this`error, this`effects
      ensures FirstSignUpError(fullname, username, email, password, validateEmail).Some? ==>
                && error == FirstSignUpError(fullname, username, email, password, validateEmail)
                && !loading && effects == old(effects)
      ensures FirstSignUpError(fullname, username, email, password, validateEmail).None? ==>
                var pre := old(effects) + (if profilePic.Some? then [UploadImage(profilePic.value)] else []);
                && loading
                && (profilePic.Some? && upload.UploadFailed? ==>
                      effects == pre && error == Some(RequestErrorText(upload.serverMessage)))
                && (!(profilePic.Some? && upload.UploadFailed?) ==>
                      var payload := RegisterPayload(fullname, username, email, password, bio,
                                                     ImageUrlSent(profilePic, upload), adminInviteToken);
                      && effects == pre + [Register(payload)]
                                        + (if register.Registered? then [Toast(register.message), Navigate("/login")] else [])
                      && error == (if register.Registered? then Some("") else Some(RequestErrorText(register.serverMessage))))
    {
      loading := true;
      error := Some("");
      var profileImageUrl := "";
      if fullname == "" {
        error := Some(FullNameRequired);
        loading := false;
        return;
      }
      if username == "" {
        error := Some(UsernameRequired);
        loading := false;
        return;
      }
      if !validateEmail(email) {
        error := Some(InvalidEmail);
        loading := false;
        return;
      }
      if password == "" {
        error := Some(PasswordRequired);
        loading := false;
        return;
      }
      if profilePic.Some? {
        effects := effects + [UploadImage(profilePic.value)];
        match upload {
          case Uploaded(imageUrl) =>
            profileImageUrl := OrElse(imageUrl, "");
          case UploadFailed(serverMessage) =>
            error := Some(RequestErrorText(serverMessage));
            return;
        }
      }
      effects := effects + [Register(RegisterPayload(fullname, username, email, password, bio, profileImageUrl, adminInviteToken))];
      match register {
        case Registered(message) =>
          effects := effects + [Toast(message), Navigate("/login")];
        case RegisterFailed(serverMessage) =>
          error := Some(RequestErrorText(serverMessage));
      }
    }
  }
}

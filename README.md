# Assignado client: verified model of its handlers

Assignado is a task-management web client. A member sees the tasks assigned to
them, filters them by status and ticks off checklist items. An admin creates and
edits users. Users sign up and log in. Every page talks to a remote task store
over HTTP. This project models the rules those pages apply around the store
calls, and proves what they guarantee:

- the optimistic checklist toggle of the task detail page, with its rollback
  (`ViewTaskDetails`);
- the task list load of the "My Tasks" page, with its status filter, its four
  status tabs and its loading flag (`UserTask`);
- the profile form's field updates, ordered validator, request body, endpoint
  and submit handler (`UserProfileForm`);
- the ordered checks, request and error choice of the sign-up and login pages
  (`SignUp`, `Login`);
- the blank record and reset rules of the admin's "Create New User" dialog
  (`CreateUser`);
- the JavaScript built-ins these rely on: truthiness, `||` defaults,
  `String.prototype.trim` and decimal rendering of a number (`Js`).

Each page that keeps state is a class. Its fields are the page's state
variables. Its methods are the handlers, and each handler's `ensures` gives the
whole new state. A store call is an outcome parameter of the handler, such as
`Ok(status, task) | Err`. Requests, toasts, navigation and callbacks are
appended to a recorded sequence: `effects` on most pages, `outbox` on the task
detail page, and `requests` (the status parameters sent) on the task list page.
Checklist items are heap objects (`ChecklistItem`). The toggle works on a
shallow copy of the array, so flipping an item also changes the item the task in
state holds. `UpdateTodoChecklist` proves this: its `modifies` clause names
those item objects, and its `ensures` gives their values through `Snapshot`.

Three points of the code shape the model:

- The toggle copies only the checklist array. The item objects stay shared with
  the task in state, so the flip shows in that task at once.
- A status 200 response without a `task` keeps the current task.
- The sign-up page never turns `loading` off once its request has started. The
  task list and the login page turn it off on every path.

## Model

| member | source | states |
|---|---|---|
| Js.TrimStart | src/components/UserProfileForm.jsx:27-37 | the result is a suffix of the input; it is empty or starts with a non-whitespace character; everything removed is ECMAScript whitespace |
| Js.TrimEnd | src/components/UserProfileForm.jsx:27-37 | the result is a prefix of the input; it is empty or ends with a non-whitespace character; everything removed is whitespace |
| Js.Trim | src/components/UserProfileForm.jsx:27-37 | the result of `trim()` is empty or has non-whitespace at both ends |
| Js.TrimIsInfix | src/components/UserProfileForm.jsx:27-37 | `trim()` only strips whitespace from both ends: the result is the infix of the input that starts where the leading whitespace ends, with nothing but whitespace before and after it |
| Js.TrimEmptyIffAllWhitespace | src/components/UserProfileForm.jsx:27-37 | `s.trim()` is empty exactly when every character of `s` is whitespace |
| Js.DecimalString | src/pages/user/ViewTaskDetails.jsx:214 | a number renders as decimal digits; it has one digit exactly when it is below 10, and no leading zero otherwise |
| Js.DecimalRoundTrip | src/pages/user/ViewTaskDetails.jsx:214 | reading back the rendered digits gives the number again |
| Js.LeadingZeroValue | src/pages/user/ViewTaskDetails.jsx:214 | a leading "0" does not change the value a digit string denotes |
| ViewTaskDetails.Snapshot | src/pages/user/ViewTaskDetails.jsx:53-58 | the checklist as sent: one `{text, completed}` value per item, in order, read from the current item objects |
| ViewTaskDetails.Flip | src/pages/user/ViewTaskDetails.jsx:46-50 | negates `completed` of exactly the item at the index; its text, the other items, the length and the order are unchanged |
| ViewTaskDetails.FlipTwice | src/pages/user/ViewTaskDetails.jsx:62-71 | flipping the same item back restores the checklist |
| ViewTaskDetails.ToggleItem | src/pages/user/ViewTaskDetails.jsx:50 | the in-place negation of one item object changes the checklist exactly as `Flip` does, given distinct item objects |
| ViewTaskDetails.TaskDetailsView.constructor | src/pages/user/ViewTaskDetails.jsx:11-12 | the page starts with no task and no requests |
| ViewTaskDetails.TaskDetailsView.GetTaskDetailsById | src/pages/user/ViewTaskDetails.jsx:25-41 | one read of the route's task; a response with a body sets the task to the body's `task`; a response without a body or an error keeps the task |
| ViewTaskDetails.TaskDetailsView.UpdateTodoChecklist | src/pages/user/ViewTaskDetails.jsx:43-73 | without a checklist array or an item at the index: nothing changes and nothing is sent; otherwise the whole checklist is sent with the item flipped; on 200 the task becomes the response's task or stays, and the item stays flipped; on another status or an error the task stays and every item has its pre-toggle value |
| ViewTaskDetails.StatusTagColor | src/pages/user/ViewTaskDetails.jsx:14-23 | cyan exactly for "In Progress", lime exactly for "Completed", violet for every other or missing status |
| ViewTaskDetails.NormalizeLink | src/pages/user/ViewTaskDetails.jsx:75-80 | a link matching `^https?://` in any letter case is kept; any other gets "https://" in front |
| ViewTaskDetails.NormalizeLinkIdempotent | src/pages/user/ViewTaskDetails.jsx:76-78 | the result always has an http or https scheme and ends with the original link; normalising twice equals normalising once |
| ViewTaskDetails.AttachmentLabel | src/pages/user/ViewTaskDetails.jsx:214 | the label is all digits, at least two of them, and denotes index + 1; below index 9 it is exactly "0" followed by the decimal of index + 1, otherwise the plain decimal |
| UserTask.StatusParam | src/pages/user/UserTask.jsx:30 | the status parameter is "" for "All" and the filter itself otherwise |
| UserTask.StatusParamSeparatesTabs | src/pages/user/UserTask.jsx:30 | the four tab filters give four different parameters, and only "All" gives "" |
| UserTask.CountOrZero | src/pages/user/UserTask.jsx:37-40 | a missing count defaults to 0, a present count is kept |
| UserTask.TabsOf | src/pages/user/UserTask.jsx:35-41 | exactly four tabs, All, Pending, In Progress, Completed in that order, each with its summary count or 0; a missing summary gives four zeros |
| UserTask.TasksOf | src/pages/user/UserTask.jsx:33 | the list becomes the response's tasks when they are present, and [] when the data or its tasks are missing |
| UserTask.CardDefaultsOf | src/pages/user/UserTask.jsx:101-103 | attachment count, completed-todo count and checklist fall back to 0, 0 and [] when absent |
| UserTask.TaskListView.constructor | src/pages/user/UserTask.jsx:17-21 | the page starts with filter "All", loading on, and no tasks or tabs |
| UserTask.TaskListView.BeginLoad | src/pages/user/UserTask.jsx:26-32 | loading turns on and one request with the filter's status parameter is issued; tasks, tabs and filter are untouched |
| UserTask.TaskListView.FinishLoad | src/pages/user/UserTask.jsx:33-47 | a response replaces the tasks and the tabs; an error keeps both; loading is off either way |
| UserTask.TaskListView.GetAllTasks | src/pages/user/UserTask.jsx:25-48 | one request with the filter's parameter; a response replaces tasks and tabs, an error keeps them; loading ends off on both paths |
| UserProfileForm.HandleChange | src/components/UserProfileForm.jsx:17-24 | only the named field changes; a text field takes the input's value; the image field takes the first selected file, or undefined when none is selected |
| UserProfileForm.ValidateForm | src/components/UserProfileForm.jsx:26-53 | name, username, email are checked in that order for blank-after-trim, then the mode's password rule; the first failure decides the message; an accepted form has a new password in create mode and a current password with any new one in update mode |
| UserProfileForm.ValidateFormAcceptsIffChecksPass | src/components/UserProfileForm.jsx:26-53 | the validator accepts exactly the forms whose name, username and email hold a non-whitespace character and that meet the mode's password rule |
| UserProfileForm.BuildPayload | src/components/UserProfileForm.jsx:87-112 | the body always has name, username and email; bio and image only in update mode; in create mode the password when given and the role or "member"; in update mode both passwords only when both are given; no other key |
| UserProfileForm.AcceptedPasswordIsSent | src/components/UserProfileForm.jsx:41-50 | for a form that passes validation, create mode always sends a non-empty password, and update mode sends both passwords whenever a new one is set; each mode omits the other mode's keys |
| UserProfileForm.SubmitEndpoint | src/components/UserProfileForm.jsx:114-129 | the create path exactly in create mode; otherwise the admin update path exactly when an admin edits another user, both with the edited user's id |
| UserProfileForm.ClearPasswords | src/components/UserProfileForm.jsx:131-135 | both passwords become "" and every other field is kept |
| UserProfileForm.ProfileForm.constructor | src/components/UserProfileForm.jsx:6-15 | the form starts from the parent's record and props, not loading, with no effects |
| UserProfileForm.ProfileForm.HandleSubmit | src/components/UserProfileForm.jsx:55-153 | a rejected form only shows the validator's message: no request, no state change; an accepted form is saved as `Save` states |
| UserProfileForm.ProfileForm.Save | src/components/UserProfileForm.jsx:62-152 | an update-mode file is uploaded first and an upload error ends with its message; otherwise the built body goes to the chosen endpoint; success shows its toast, clears both passwords and calls the callbacks (close only in create mode); failure shows the server's message or the mode's fixed text; loading ends off |
| UserProfileForm.ProfileForm.ResolveImage | src/components/UserProfileForm.jsx:64-85 | only a file selected in update mode is uploaded, and it is replaced by the returned URL; an upload error shows its message and is reported as failed |
| UserProfileForm.ProfileForm.Settle | src/components/UserProfileForm.jsx:121-149 | success: toast, passwords cleared, `onUpdateSuccess` with the response's user, `onClose` in create mode; failure: error toast and the form unchanged |
| SignUp.FirstSignUpError | src/pages/auth/SignUp.jsx:32-58 | full name, username, email validity and password are checked in that order; the first failure gives its message; no message exactly when all four pass |
| SignUp.RequestErrorText | src/pages/auth/SignUp.jsx:76-81 | the server's message when present, the fixed text otherwise; never empty |
| SignUp.ImageUrlSent | src/pages/auth/SignUp.jsx:31-64 | "" without a picture; with one, the upload's `imageUrl`, or "" when that is missing |
| SignUp.SignUpPage.constructor | src/pages/auth/SignUp.jsx:14-22 | every input starts empty, no picture, not loading, error null |
| SignUp.SignUpPage.HandleSignUp | src/pages/auth/SignUp.jsx:26-83 | error cleared and loading on; a failing check sets its message, turns loading off and sends nothing; otherwise the picture is uploaded and the register body (name = full name, then username, email, password, bio, image URL, invite token) is sent; success toasts and navigates to /login; a failure sets the server's or the fixed message; loading stays on along the request path |
| Login.FirstLoginError | src/pages/auth/Login.jsx:25-35 | email validity, then a non-empty password; no message exactly when both pass |
| Login.RedirectPath | src/pages/auth/Login.jsx:51-53 | "/admin/dashboard" exactly for role "admin", "/user/dashboard" for any other or missing role |
| Login.LoginErrorMessage | src/pages/auth/Login.jsx:56-66 | the server's message first, then the timeout text for ECONNABORTED, then the fixed text; never empty |
| Login.LoginPage.constructor | src/pages/auth/Login.jsx:12-17 | empty inputs, error null, not loading, the stored token and session user as given |
| Login.LoginPage.HandleLogin | src/pages/auth/Login.jsx:20-70 | a failing check sets its message and sends nothing; a response with a token stores it and the user, any other keeps both; a response with a user toasts and redirects by role, one without a user fails reading its role and shows the fixed text; a request error shows its message by priority; loading is off on every path |
| CreateUser.BlankForm | src/pages/admin/CreateUser.jsx:6-14 | the blank record: every field "" except role "member", and no current password |
| CreateUser.BlankFormIsRejected | src/pages/admin/CreateUser.jsx:6-14 | a reset dialog cannot be submitted: the create-mode validator rejects the blank record with "Name is required" |
| CreateUser.Render | src/pages/admin/CreateUser.jsx:45-67 | nothing is rendered exactly when the dialog is closed; an open dialog embeds the profile form on its record, always in create mode |
| CreateUser.CreateUserDialog.constructor | src/pages/admin/CreateUser.jsx:6-14 | the dialog starts with the blank record and no callbacks made |
| CreateUser.CreateUserDialog.HandleClose | src/pages/admin/CreateUser.jsx:16-27 | the record is reset to the blank record, then `onClose` is called |
| CreateUser.CreateUserDialog.HandleUserCreated | src/pages/admin/CreateUser.jsx:29-43 | the record is reset to the blank record; the new user is passed to `onUserCreated` exactly when that callback is given |

## Left out

- HTTP requests (`axiosInstance`, `uploadImage`) are not performed: each is a recorded request plus an outcome parameter of the handler that awaits it.
- Toasts, `navigate`, `localStorage` and the session context are recorded effects or fields; `console` logging is not modelled.
- `window.open` in `linkClickHandler` is not modelled: `NormalizeLink` gives the link it would open, but opening it is not recorded.
- `validateEmail` lives in a helper file that is not part of this model; it is a function-valued parameter with no assumed behaviour.
- The task store's behaviour, JSON decoding and HTTP status handling are outcomes chosen by the caller. An `Err` outcome stands for any thrown error, including a status the HTTP client rejects.
- React's rendering, `useEffect` re-fetching on an id or filter change, the input `onChange` setters of the sign-up and login pages, and all markup, CSS and `moment` date formatting are not modelled. The status colour lookup is the exception.
- Overlapping requests, such as two toggles racing or a list load overtaken by a filter change, are not modelled; each handler runs to completion.
- Form submit's `preventDefault` is not modelled.
- UserTask.Tab: the tab's `label` field is named `name`, because `label` is a Dafny keyword.
- UserProfileForm.BuildPayload: body keys are an enumeration with `KeyName` giving the JSON name. An undefined value is kept under its key; JSON serialisation would drop that key.
- ViewTaskDetails.TaskDetailsView.UpdateTodoChecklist: the items of one checklist are assumed to be distinct objects, as JSON decoding produces them. A checklist entry that is null or not an object is not modelled. A non-integer index is not modelled either.
- ViewTaskDetails.TaskDetailsView.UpdateTodoChecklist: the second guard at ViewTaskDetails.jsx:49 repeats the first and is not modelled separately.
- ViewTaskDetails.NormalizeLink: only strings are modelled; a non-string link that JavaScript would coerce is not.
- ViewTaskDetails.NormalizeLink: the `i` flag is modelled as ASCII case-insensitivity, which is all it does on "http".
- Task fields that the pages only display (due date, priority, assignees, progress) are not modelled.
- Counts are unbounded integers; JavaScript's number type and its precision limits are not modelled.
- Login.LoginPage.HandleLogin: a response without a `data` body is not modelled. Destructuring such a response would throw and show the fixed text.
- The context files (navigation bar, side menu, auth layout, photo selector, loader, chart tooltip) are presentational and not part of this model.

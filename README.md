# User console core, modelled in Dafny

This project models the logic of a small administrative console for user
accounts: a page that lists users and drives two dialogs (a create/edit form
and a delete confirmation), and the form that creates or updates a user.
Everything else in the repository is presentation.

- `api.dfy` (module `Api`): the user record, the JSON values a form holds,
  the four REST requests (GET, POST, PUT, DELETE on `/user`) and what a
  request can end with: a response with a status, or a thrown error that may
  carry the backend's `error` object.
- `decimal.dfy` (module `Decimal`): the decimal text a template literal
  writes for a whole number, with its read-back.
- `relative_age.dfy` (module `RelativeAge`): `getDateDifference`, the
  "Created N <unit> ago" text of the users table.
- `users_page.dfy` (module `UsersPage`): the page's five state cells
  (`isLoading`, `users`, `selectedUser`, `openUserForm`, `openDeleteModal`) as
  a class whose methods are the page's handlers, plus the same transitions as
  pure functions over a state record, so that invariants can be stated across
  any sequence of user actions.
- `user_form.dfy` (module `UserForm`): seeding, the schema's field rules, the
  Save-disabled test, response normalisation, and the form component as a
  class whose methods are its handlers.

Requests are not performed: each handler that awaits a request takes the
request's result as an input (`Outcome`, `FetchOutcome`), so every flow is a
straight-line method. The current time is a parameter of
`getDateDifference`, and timestamps are integer milliseconds. Each class
records what it does, in order, in a ghost trace of effects: the page records
every state-setter call, request and console error; the form records its
`onLoading`/`onClose` callbacks and its requests. Ordering promises (the list
is re-fetched before the dialogs close; `onLoading(true)` comes before a
request and `onLoading(false)` after it) are stated on that trace. Every page
handler's new state is `Step` of the matching action: what replaying that
action's setter calls does to the old state, which is how the pure lemmas
about `Step` (such as `StepConsistent`) apply to the class.

Two behaviours of the code are worth knowing:

- The hours branch runs up to 59 hours and the months branch stops below 12
  months, so 50 hours ago reads "Created 50 hours ago" and 400 days ago reads
  "Created 1 years ago" (`FiftyHoursAgo`, `FourHundredDaysAgo`).
- With no user selected, `handleDeleteUser` throws while building the URL,
  after switching loading on and before its `try`; the model returns
  `rejected` and leaves loading on. `InitialConsistent`, `RunConsistent`
  and `ReachableDeleteHasSelection` show that this cannot arise from any run
  of the page's own actions starting from the initial page.

## Model

| member | source | states |
|---|---|---|
| Decimal.NatToString | src/pages/users.js:118 | the text written for a count is non-empty, all decimal digits, and starts with '0' only for zero |
| Decimal.ParseNatToString | src/pages/users.js:118 | reading the written digits back gives the number |
| Decimal.NatToStringInjective | src/pages/users.js:118 | different counts are written differently |
| RelativeAge.DateDifference | src/pages/users.js:113-134 | the nested floor divisions and the four thresholds of getDateDifference, giving the count and the unit; its properties are DateDifferenceByElapsed and DateDifferenceRanges |
| RelativeAge.UnitWord | src/pages/users.js:118-133 | the unit word of each template literal: minutes, hours, days, months, years; read back by UnitOfWordRoundTrip |
| RelativeAge.Message | src/pages/users.js:118-133 | the text "Created N <unit> ago" for a count and a unit; read back by MessageRoundTrip |
| RelativeAge.GetDateDifference | src/pages/users.js:113-134 | getDateDifference at a given current time: Message of DateDifference |
| RelativeAge.DateDifferenceByElapsed | src/pages/users.js:113-134 | with d = now - timestamp in milliseconds: minutes exactly when d < 1 hour, count max(floor(d/1 min), 0); hours exactly when 1 h <= d < 60 h, count floor(d/1 h); days exactly when 60 h <= d < 30 days, count floor(d/1 day); months exactly when 30 days <= d < 360 days, count floor(d/30 days); years from 360 days on, count floor(d/360 days) |
| RelativeAge.DateDifferenceRanges | src/pages/users.js:115-133 | minutes in [0, 59], hours in [1, 59], days in [2, 29], months in [1, 11], years at least 1; no count is negative |
| RelativeAge.FutureIsZeroMinutes | src/pages/users.js:115-118 | a timestamp later than now reads "Created 0 minutes ago" |
| RelativeAge.MessageRoundTrip | src/pages/users.js:117-133 | the "Created N <unit> ago" text can be parsed back to the count and unit it was written from |
| RelativeAge.MessageInjective | src/pages/users.js:117-133 | two different ages never give the same text |
| RelativeAge.ThirtySecondsAgo | src/pages/users.js:115-118 | 30 seconds ago reads "Created 0 minutes ago" |
| RelativeAge.NinetyMinutesAgo | src/pages/users.js:120-123 | 90 minutes ago reads "Created 1 hours ago" |
| RelativeAge.FiftyHoursAgo | src/pages/users.js:120-123 | 50 hours ago reads "Created 50 hours ago" |
| RelativeAge.FourHundredDaysAgo | src/pages/users.js:128-133 | 400 days ago reads "Created 1 years ago" |
| RelativeAge.EightHundredDaysAgo | src/pages/users.js:128-133 | 800 days ago reads "Created 2 years ago" |
| UsersPage.Apply | src/pages/users.js:42-46 | what one call of a `useState` setter does: it replaces its own cell; requests and console errors change no cell |
| UsersPage.ReplayConcat | src/pages/users.js:42-46 | replaying two runs of setter calls one after the other is replaying their concatenation |
| UsersPage.DownloadEffects | src/pages/users.js:48-60 | the setter calls and requests of downloadUsers for a given GET result; its effect on the state is DownloadResult |
| UsersPage.FetchResultEffects | src/pages/users.js:51-58 | the try/catch of downloadUsers: setUsers with the data on status 200, nothing on another status, a console error on a throw |
| UsersPage.CloseAllEffects | src/pages/users.js:81-85 | the setter calls of handleCloseAllModal: form closed, confirmation closed, selection cleared; its effect on the state is CloseAllResult |
| UsersPage.DeleteEffects | src/pages/users.js:94-107 | the setter calls and requests of handleDeleteUser for a selection and the results of the DELETE and the re-fetch; stated by DeleteResult, RefetchOnlyOn200 and RefetchBeforeClose |
| UsersPage.DeleteTailEffects | src/pages/users.js:97-106 | what handleDeleteUser does once the DELETE has come back: its result, then handleCloseAllModal, then setLoading(false) |
| UsersPage.DeleteResultEffects | src/pages/users.js:97-104 | the try/catch of handleDeleteUser: a full downloadUsers on status 200, nothing on another status, a console error on a throw |
| UsersPage.ActionEffects | src/pages/users.js:48-111 | the setter calls and requests of each handler of the page |
| UsersPage.Step | src/pages/users.js:48-111 | the state a handler leaves: its setter calls replayed on the old state; every class handler ensures its new state is Step of its action |
| UsersPage.Enabled | src/pages/users.js:145-207 | which handlers can run in a state: the dialogs are modal, so the table and the Add button are reachable only while both are closed |
| UsersPage.DownloadResult | src/pages/users.js:48-60 | a download ends with loading off, replaces the list only on status 200 (never after a thrown error), and leaves selection and dialogs alone |
| UsersPage.CloseAllResult | src/pages/users.js:81-85 | closing all modals closes both dialogs, clears the selection and changes nothing else |
| UsersPage.DeleteResult | src/pages/users.js:94-107 | with a user selected, a delete ends with loading off, both dialogs closed and no selection, and the list is replaced only when the DELETE and the re-fetch both answer 200 |
| UsersPage.StepConsistent | src/pages/users.js:66-107 | every action the page allows keeps at most one dialog open and the confirmation dialog on a selected user |
| UsersPage.InitialConsistent | src/pages/users.js:42-46 | the page starts with no dialog open, so it is consistent |
| UsersPage.RunConsistent | src/pages/users.js:48-111 | every run of enabled actions keeps a consistent page consistent |
| UsersPage.ReachableDeleteHasSelection | src/pages/users.js:94-96 | after any run of enabled actions from the initial page, a confirmed deletion finds a user selected, so `selectedUser.id` never throws |
| UsersPage.ConfirmHasSelection | src/pages/users.js:94-98 | in a consistent page, confirming a deletion sends DELETE at the selected user's id |
| UsersPage.RefetchOnlyOn200 | src/pages/users.js:94-101 | handleDeleteUser sends the re-fetch GET iff a user is selected and the DELETE answers 200 |
| UsersPage.RefetchBeforeClose | src/pages/users.js:99-105 | handleDeleteUser always closes the form and the confirmation and clears the selection, each after every step of the re-fetch (the GET and the new list) |
| UsersPage.ConfirmMessage | src/pages/users.js:200-204 | empty exactly when no user is selected; otherwise the fixed question, then the user's username, then "?" |
| UsersPage.Page.constructor | src/pages/users.js:42-46 | the cells start not loading, with an empty list, no selection and both dialogs closed |
| UsersPage.Page.Emit | src/pages/users.js:42-46 | a setter call changes its own cell only and is appended to the trace |
| UsersPage.Page.DownloadUsers | src/pages/users.js:48-64 | loading on, GET, list replaced iff status 200, error logged if thrown, loading off; the dialogs and selection are unchanged |
| UsersPage.Page.OnAddData | src/pages/users.js:66-69 | selection cleared and the form opened; nothing else changes |
| UsersPage.Page.OnUserDetail | src/pages/users.js:71-74 | the given user selected and the form opened; nothing else changes |
| UsersPage.Page.OnConfirmDeleteUser | src/pages/users.js:76-79 | the given user selected and the confirmation opened; nothing else changes |
| UsersPage.Page.HandleCloseAllModal | src/pages/users.js:81-85 | both dialogs closed and selection cleared; list and loading unchanged |
| UsersPage.Page.OnCloseUserForm | src/pages/users.js:87-92 | all dialogs closed first, then the list re-fetched exactly when the form reports a change |
| UsersPage.Page.HandleDeleteUser | src/pages/users.js:94-107 | loading on, DELETE at the selected id, re-fetch only on status 200 and before the dialogs close, then dialogs closed, selection cleared, loading off; with no selection it stops after switching loading on |
| UsersPage.Page.DeleteSelectedUser | src/pages/users.js:94-107 | with a user selected: the DELETE is sent at that user's id and the handler ends with loading off, dialogs closed, selection cleared, and a new list only when both requests answered 200 |
| UsersPage.Page.AfterDelete | src/pages/users.js:99-106 | after the DELETE's result, all modals are closed and then loading is switched off |
| UsersPage.Page.OnDeleteResult | src/pages/users.js:99-104 | a 200 answer triggers a full download, another answer does nothing, a thrown error is logged |
| UsersPage.Page.HandleLoading | src/pages/users.js:109-111 | the form's loading report sets the loading cell and nothing else |
| UsersPage.Page.CurrentConfirmMessage | src/pages/users.js:200-204 | the confirmation text is empty exactly when no user is selected |
| UserForm.OrDefault | src/components/UserForm.js:97-102 | a missing or empty string gives the default, any other string is kept |
| UserForm.InitialValues | src/components/UserForm.js:96-104 | the seeded values have exactly the seven form keys, `submit` is null, every other key holds a string, the role is never empty |
| UserForm.CreateFormSeed | src/components/UserForm.js:96-104 | a create form starts with every text field '' and the STUDENT role |
| UserForm.EditFormSeed | src/components/UserForm.js:96-104 | an edit form shows the user's fields, '' for a missing one, and STUDENT for a missing or empty role |
| UserForm.Falsy | src/components/UserForm.js:265 | JavaScript's `!values[k]`: the key is missing, null or the empty string |
| UserForm.ValidText | src/components/UserForm.js:109-124 | the schema's rule for a text field: a present string of 1 to 255 characters |
| UserForm.Validates | src/components/UserForm.js:105-126 | the whole schema: the four text fields valid and the email accepted by the address check |
| UserForm.SaveDisabled | src/components/UserForm.js:265 | Save is disabled iff a submission is in flight or one of username, full_name, email, password is missing or empty |
| UserForm.ValidEnablesSave | src/components/UserForm.js:105-126 | values the schema accepts (each text field non-empty and at most 255 long, email well formed) leave Save enabled when nothing is in flight |
| UserForm.EnabledSaveHasText | src/components/UserForm.js:265 | an enabled Save means no submission in flight and a non-empty string in each required field |
| UserForm.SaveEnabledOnOverlongName | src/components/UserForm.js:109-112 | Save stays enabled for a 256-character username that the schema refuses |
| UserForm.CreateFormSaveDisabled | src/components/UserForm.js:96-104 | a fresh create form cannot be saved |
| UserForm.Normalize | src/components/UserForm.js:36-43 | the response createUser and updateUser return: the client's response, else the backend's error object, else status 500 with the generic text; see SuccessOutcomes and FailureText |
| UserForm.IsSuccess | src/components/UserForm.js:143 | a submission succeeded exactly when the response's status is 200 |
| UserForm.SubmitErrorText | src/components/UserForm.js:149 | the error shown is never empty: the response's message when it is a non-empty string, and the generic text exactly otherwise |
| UserForm.SuccessOutcomes | src/components/UserForm.js:36-43 | a submission succeeds iff the request answered 200, or it threw with a backend error object whose status is 200 |
| UserForm.FailureText | src/components/UserForm.js:39-43 | a thrown error without a backend error object fails with "Something went wrong"; a backend error's own non-empty message is shown unchanged |
| UserForm.RespondedNot200Text | src/components/UserForm.js:143-149 | a resolved request with another status fails with the generic text |
| UserForm.RoleBody | src/components/UserForm.js:26-30 | the role-change body holds the role and no other field |
| UserForm.SubmitRequest | src/components/UserForm.js:134-141 | PUT at the user's id iff there is a user, POST otherwise; the body is the values with `submit` removed and every other field unchanged |
| UserForm.UnchangedEditResubmits | src/components/UserForm.js:134-141 | saving an untouched edit form sends the seeded record, without `submit`, at the user's id |
| UserForm.RequestEffects | src/components/UserForm.js:32-67 | onLoading(true), then the request, then onLoading(false), as both createUser and updateUser report it |
| UserForm.Form.constructor | src/components/UserForm.js:21-24 | a new form is not `updated`, holds the seeded values, no status, no error, nothing in flight |
| UserForm.Form.HandleChange | src/components/UserForm.js:195-245 | a change event on one of the four text fields sets that field only; the username field sends none while editing, so it keeps its seeded value |
| UserForm.Form.CreateUser | src/components/UserForm.js:32-48 | onLoading(true), POST, onLoading(false); returns the normalised response and leaves `updated` alone |
| UserForm.Form.UpdateUser | src/components/UserForm.js:50-67 | onLoading(true), PUT at the user's id, onLoading(false); returns the normalised response; `updated` becomes true iff the PUT did not throw and is never cleared |
| UserForm.Form.OnRoleChange | src/components/UserForm.js:26-30 | the role value changes; a PUT of the role alone is sent iff there is a user, otherwise no request |
| UserForm.Form.OnSubmit | src/components/UserForm.js:128-151 | the request of SubmitRequest is sent between the loading reports; on status 200 the form is reset, success is marked and onClose(true) is called; otherwise failure is marked, the error text is shown, `submit` is gone from the values and onClose is not called |
| UserForm.Form.SendValues | src/components/UserForm.js:134-141 | `submit` is removed from the values, and the request of SubmitRequest is sent between the loading reports |
| UserForm.Form.FinishSubmit | src/components/UserForm.js:142-150 | on status 200: values reset to the seed, no error, success marked, onClose(true); otherwise: failure marked, the error text set, values kept, onClose not called |
| UserForm.Form.Close | src/components/UserForm.js:89 | the close icon calls onClose with the current `updated` value |
| UserForm.Form.SaveEnabled | src/components/UserForm.js:265 | an enabled Save means nothing in flight and every required field filled |

## Left out

- Rendering, styles, icons and the Material-UI components of both files; the confirmation dialog, the router and the HTTP client configuration (base URL, deployment stage, timeout, headers) are not part of this model.
- Real requests: each request's result is an input. Which statuses the HTTP client turns into thrown errors is not modelled; any status may arrive as a response.
- Async interleaving: handlers run to completion one at a time; a stale response applied after the view changed is not modelled.
- Console output: a logged error is a `LogError` effect with no content.
- `new Date()` and the conversion of `createdAt` strings: the current time and the timestamp are integer milliseconds.
- Decimal.NatToString: JavaScript writes numbers of 10^21 and above in exponent form; counts that large would need timestamps far outside the range of a JavaScript date, so only plain decimal digits are modelled.
- Email syntax: the validation library's address check is a parameter `emailOk` of `Validates`, not a definition. String length is a count of characters, not of UTF-16 code units.
- Formik internals: touched and blur tracking, per-field error messages, running the schema before `onSubmit`, the in-flight flag being set on submit, and re-seeding when the `user` prop changes (`enableReinitialize`). A `Form` object is built for one `user` prop; its `updated` flag, which React keeps across dialog openings, is only shown within that object.
- User records: the identifier and username are taken to be present; null and undefined are not distinguished (both are `None`). The `UserRole` constants file is not part of this model; the STUDENT role is the string "STUDENT".
- Initial page load: `useEffect` calls `downloadUsers` once on mount; the model exposes `DownloadUsers` and leaves the call to the caller.

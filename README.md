# CRUD_APP client core in Dafny

This project models the client-side logic of CRUD_APP, a React Native task manager. It covers four pieces:

- **The authenticated HTTP client** (`src/services/axios.js`).
  - A request interceptor attaches the stored access token.
  - A response interceptor answers a 401 by refreshing the access token once. Every request not yet retried that gets a 401 while the refresh runs is parked in a queue, then replayed or rejected with the same outcome. The exception is a request parked while the tokens are being cleared after a failed refresh: it stays queued (see Findings).
- **The credential store** (`src/services/authService.js`). It saves, reads and clears the access token, the refresh token and the user details in the device keychain.
- **The form logic of the three screens**:
  - the sign-up checks and the password checklist;
  - the login checks;
  - the checks on a task form;
  - the per-field input handlers;
  - the defaults of a task form, the update guard, the status toggle and the colour lookups.
- **The JavaScript primitives these rely on**:
  - truthiness;
  - `String.prototype.trim`;
  - `replace(/\D/g, '')`;
  - the regular expressions `/\S+@\S+\.\S+/` and `/(?=.*[a-z])(?=.*[A-Z])(?=.*\d)/`.

Files and modules:

- `js_text.dfy` (`JsText`): `Option`, truthiness, the ECMA-262 white-space set, `trim`, digit stripping, and the two patterns. Both patterns are unanchored and are modelled as such.
- `form_errors.dfy` (`FormErrors`): the `errors` objects of the screens, and the error half of `handleInputChange`.
- `auth_service.dfy` (`AuthService`): the keychain as a `CredentialStore` class with three optional slots.
  - Which keychain call throws is a parameter `failAt`: the position of the first call that throws, or 0 when none does.
  - The pure functions `Save` and `Clear` state what each operation leaves behind.
- `auth_client.dfy` (`AuthClient`): the interceptors.
  - JavaScript runs one task at a time, so the module-level `isRefreshing` and `failedQueue` only change between two `await`s.
  - Each such stretch of code is one method of the `Coordinator` class.
  - `phase` records the await at which the one running refresh is suspended.
  - What the keychain and the network answer comes in as parameters.
  - What the interceptor asks for next comes back as a `Next` value.
  - Ghost counters record the refreshes started and the refresh-endpoint calls made. `Valid()` keeps the endpoint calls at one or fewer per refresh.
- `auth_client_runs.dfy` (`RefreshRuns`): whole runs, each through one order of the await points that the event loop allows. They show:
  - single-flight refresh;
  - a failed refresh;
  - a missing refresh token;
  - the two departures from the design listed under Findings.
- `signup_screen.dfy`, `login_screen.dfy`, `home_screen.dfy`: the screens' logic.
  - Each field's `if / else if` chain is a function that yields that field's message.
  - `validate` is a method that builds the `errors` map and the `valid` flag, as the source does. It is proved against those functions.

## Model

| member | source | states |
|---|---|---|
| JsText.TrimSpec | src/screens/auth/SignUpScreen.js:53-59 | `trim()` yields a contiguous piece of the string that neither starts nor ends with white space, with only white space (ECMA-262 WhiteSpace and LineTerminator) cut off either side |
| JsText.TrimStartSpec | src/screens/auth/SignUpScreen.js:53 | the leading cut is all white space and the rest starts with a non-space character |
| JsText.TrimEndSpec | src/screens/auth/SignUpScreen.js:53 | the trailing cut is all white space and the rest ends with a non-space character |
| JsText.TrimEmptyIffBlank | src/screens/auth/SignUpScreen.js:53 | a string trims to `''` (is falsy after `trim()`) exactly when it is all white space, the empty string included |
| JsText.DigitsOf | src/screens/auth/SignUpScreen.js:71 | `replace(/\D/g, '')` keeps only digits and never lengthens the string |
| JsText.DigitsOfDigits | src/screens/auth/SignUpScreen.js:71 | a string of digits is left unchanged by the stripping |
| JsText.DigitsOfNone | src/screens/auth/SignUpScreen.js:71 | a string with no digit is stripped to `''` |
| JsText.DigitsOfAppend | src/screens/auth/SignUpScreen.js:71 | stripping a concatenation strips each part |
| JsText.EmailPatternSurvivesContext | src/screens/auth/SignUpScreen.js:65 | the e-mail test is unanchored: text around a matching string never makes it fail |
| JsText.PasswordPatternNeedsAllClasses | src/screens/auth/SignUpScreen.js:83 | a string passing the lookahead pattern holds a lower-case letter, an upper-case letter and a digit, whatever its line breaks |
| JsText.PasswordPatternOnOneLine | src/screens/auth/SignUpScreen.js:83 | on a string without line terminators the pattern holds exactly when it has a lower-case letter, an upper-case letter and a digit |
| FormErrors.BlankError | src/screens/auth/SignUpScreen.js:136-141 | the error entry of the edited field becomes `''` only when it was truthy; the set of fields and every other entry are unchanged |
| AuthService.SaveWrites | src/services/authService.js:5-12 | `saveTokens` makes one to three keychain writes |
| AuthService.Save | src/services/authService.js:3-19 | `saveTokens` returns true exactly when none of its writes throws; on success the access slot holds the new token and the refresh and user slots hold the new values when truthy; a falsy refresh token or user detail leaves its slot as it was; the writes stop at the first that throws: a throw on the first write changes nothing, a throw on the second leaves only the access slot written, a throw on the third leaves the access and refresh slots written, and a failed save never touches the user slot (a partial update) |
| AuthService.Clear | src/services/authService.js:60-70 | `clearTokens` returns true exactly when none of its three resets throws, and then all three slots are empty; a throw stops the resets in order: on the first nothing changes, on the second only the access slot is emptied, on the third the access and refresh slots are emptied and the user slot is kept |
| AuthService.CredentialStore.SaveTokens | src/services/authService.js:3-19 | the keychain writes run in the source's order and leave the store and result that `Save` describes |
| AuthService.CredentialStore.GetAccessToken | src/services/authService.js:21-32 | the stored access token, or null when the slot is empty or the read throws |
| AuthService.CredentialStore.GetRefreshToken | src/services/authService.js:34-45 | the stored refresh token, or null when the slot is empty or the read throws |
| AuthService.CredentialStore.GetUserDetails | src/services/authService.js:47-58 | the stored user details, or null when the slot is empty or the read throws |
| AuthService.CredentialStore.ClearTokens | src/services/authService.js:60-70 | the three resets run in the source's order and leave the store and result that `Clear` describes |
| AuthService.SaveAndReload | src/services/authService.js:3-45 | after a save with a truthy refresh token and no throw, the getters return the saved access and refresh tokens |
| AuthService.ClearAndReload | src/services/authService.js:60-70 | after a clear with no throw, all three getters return null |
| AuthClient.Bearer | src/services/axios.js:75 | the header starts with `Bearer ` and the rest is exactly the token |
| AuthClient.Judge | src/services/axios.js:54-64 | a reply yields new tokens exactly when it carries a truthy access token; the returned refresh token is used when truthy, otherwise the one sent; a reply without an access token is the error 'No access token in response'; a failed POST rethrows its error |
| AuthClient.Coordinator.constructor | src/services/axios.js:19-20 | the client starts with the flag down, an empty queue and no refresh running |
| AuthClient.Coordinator.ProcessQueue | src/services/axios.js:22-32 | every parked request, in order, is settled with the one same outcome, and the queue is empty afterwards |
| AuthClient.Coordinator.OnResponseError | src/services/axios.js:89-105 | anything but a 401 on a request not yet retried is rejected with its response body when truthy, else with the error itself, and changes nothing; such a 401 is parked (appended once, flag and refresh untouched) while a refresh runs; otherwise it marks its request `_retry`, raises the flag and starts exactly one refresh; the queue stays empty while the flag is down |
| AuthClient.Coordinator.OnRefreshTokenRead | src/services/axios.js:38-53 | with no truthy refresh token the refresh fails before any endpoint call and every parked request is rejected with that error; otherwise the one endpoint POST is made with the stored token |
| AuthClient.Coordinator.OnEndpointReply | src/services/axios.js:54-64 | a reply with an access token moves on to saving the tokens; any other reply rejects every parked request with the one refresh error and moves on to clearing the tokens |
| AuthClient.Coordinator.OnTokensSaved | src/services/axios.js:107-119 | the tokens are saved, and the result of the save is ignored; the starting request gets `Bearer <new token>` and is replayed; every parked request is resolved with the same token; the flag goes down with the queue empty |
| AuthClient.Coordinator.OnTokensCleared | src/services/axios.js:112-119 | as written: the tokens are cleared; the starting request is rejected with the refresh error and the flag goes down; requests parked during the clear stay queued |
| AuthClient.Coordinator.OnTokensClearedDraining | src/services/axios.js:112-119 | corrected: the same, but the requests parked during the clear are rejected with the same error, so the queue is empty when the flag goes down |
| AuthClient.ResumeWaiter | src/services/axios.js:94-101 | as written: a resolved request takes `Bearer <token>` and is replayed without `_retry`; a rejected one is rejected with the refresh error, untouched |
| AuthClient.ResumeWaiterOneShot | src/services/axios.js:94-101 | corrected: the replay is also marked `_retry` |
| AuthClient.AttachToken | src/services/axios.js:71-83 | the header becomes `Bearer <token>` exactly when a truthy token is read, and is otherwise left as it was |
| RefreshRuns.SimultaneousExpiry | src/services/axios.js:89-110 | as written: n requests meeting an expired token together start one refresh and cause exactly one refresh POST (the ghost counters end at one each); the client ends idle with nothing parked, and all n come back as replays (`Replay`) through the source's continuation with the same new bearer header, which the request interceptor keeps |
| RefreshRuns.RotatedRefreshToken | src/services/axios.js:54-61 | when the endpoint returns a new refresh token with the access token, the store holds both new tokens once they are saved |
| RefreshRuns.FailedRefresh | src/services/axios.js:112-119 | as written: when the refresh POST fails, one POST was made, all n requests are rejected with the one same refresh error, nothing stays parked, and the access token is gone afterwards |
| RefreshRuns.MissingRefreshToken | src/services/axios.js:38-42 | as written: with no stored refresh token, no POST is made, the request is rejected with 'No refresh token available', and the store is cleared |
| RefreshRuns.StrandedWaiter | src/services/axios.js:112-119 | as written: a 401 that arrives during the clear after a failed refresh is still queued once the flag is down |
| RefreshRuns.LateWaiterRejected | src/services/axios.js:112-119 | corrected: that request receives the same refresh error and nothing stays queued |
| RefreshRuns.RefreshWithOneWaiter | src/services/axios.js:92-110 | a successful refresh with one parked request leaves the client idle; only the starting request is marked `_retry`, and the parked one is resolved with the new token |
| RefreshRuns.ReplayRefreshesAgain | src/services/axios.js:96-103 | as written: when both replays of a refresh meet a 401, the parked one starts a second refresh |
| RefreshRuns.ReplayRejectedOnce | src/services/axios.js:96-103 | corrected: both second 401s are rejected |
| SignUpScreen.Inputs.With | src/screens/auth/SignUpScreen.js:130-133 | `{ ...prev, [field]: value }` sets that field and no other |
| SignUpScreen.PasswordCriteria | src/screens/auth/SignUpScreen.js:41-46 | four checklist lines, in order: length of 8 or more, an upper-case letter, a lower-case letter, a digit |
| SignUpScreen.AcceptedPasswordMeetsCriteria | src/screens/auth/SignUpScreen.js:77-86 | a password that passes the length and pattern checks ticks all four checklist lines |
| SignUpScreen.FullNameMessageSpec | src/screens/auth/SignUpScreen.js:53-59 | the full name is refused when shorter than 2 once trimmed, and reported missing exactly when it is all white space |
| SignUpScreen.EmailMessageSpec | src/screens/auth/SignUpScreen.js:62-68 | the e-mail is refused exactly when the pattern does not match, and reported missing exactly when it is empty |
| SignUpScreen.PhoneOfDigitsPasses | src/screens/auth/SignUpScreen.js:71-74 | a phone number of ten or more digits passes |
| SignUpScreen.PhoneSeparatorsIgnored | src/screens/auth/SignUpScreen.js:71-74 | non-digit separators inside a phone number never change its verdict |
| SignUpScreen.PasswordMessageSpec | src/screens/auth/SignUpScreen.js:77-86 | the password is refused exactly when shorter than 8 or failing the pattern; only the first failing check's message is given (missing, then too short); a password that passes ticks the whole checklist |
| SignUpScreen.ConfirmMessageSpec | src/screens/auth/SignUpScreen.js:89-95 | the confirmation passes exactly when it is filled in and equal to the password, and is reported missing exactly when empty |
| SignUpScreen.AcceptedFormIsWellFormed | src/screens/auth/SignUpScreen.js:48-105 | a form with no message has a matching e-mail, a password ticking the whole checklist and an equal confirmation |
| SignUpScreen.EveryFieldNoted | src/screens/auth/SignUpScreen.js:48-105 | errors that agree with the five field chains on each field agree on all fields |
| SignUpScreen.Validate | src/screens/auth/SignUpScreen.js:48-105 | each field's entry is exactly the message of the first failing check of its chain, or absent; the result is true exactly when the terms box is ticked and no entry was recorded; an unticked box adds no entry |
| SignUpScreen.HandleInputChange | src/screens/auth/SignUpScreen.js:129-142 | only the edited field takes the new value; its error is blanked only when it was truthy; nothing else changes |
| LoginScreen.Inputs.With | src/screens/auth/LoginScreen.js:80-83 | `{ ...prev, [field]: value }` sets that field and no other |
| LoginScreen.PasswordMessageSpec | src/screens/auth/LoginScreen.js:43-49 | the password is refused exactly when shorter than 6, and reported missing rather than short when empty |
| LoginScreen.Validate | src/screens/auth/LoginScreen.js:31-53 | each field's entry is exactly the message of the first failing check of its chain, or absent; the result is true exactly when no entry was recorded |
| LoginScreen.AcceptedFormIsWellFormed | src/screens/auth/LoginScreen.js:31-53 | an accepted form has a matching e-mail and a password of 6 or more characters |
| LoginScreen.SignedUpCredentialsPass | src/screens/auth/LoginScreen.js:35-49 | the e-mail and password of a sign-up form that passes also pass the login checks |
| LoginScreen.HandleInputChange | src/screens/auth/LoginScreen.js:79-91 | only the edited field takes the new value; its error is blanked only when it was truthy; nothing else changes |
| HomeScreen.TitleMessageSpec | src/screens/Home/HomeScreen.js:99-105 | the title is refused when shorter than 3 once trimmed, and reported missing exactly when it is all white space |
| HomeScreen.DescriptionMessageSpec | src/screens/Home/HomeScreen.js:107-110 | the description is refused exactly when it is all white space |
| HomeScreen.ValidateTask | src/screens/Home/HomeScreen.js:95-114 | each field's entry is exactly the message of the first failing check of its chain, or absent; the result is true exactly when no entry was recorded |
| HomeScreen.AcceptedTaskIsFilledIn | src/screens/Home/HomeScreen.js:95-114 | an accepted task has a title of 3 or more characters once trimmed and a description that is not all white space |
| HomeScreen.ResetTaskForm | src/screens/Home/HomeScreen.js:116-125 | an empty title and description, status pending, priority low, no errors, nothing selected |
| HomeScreen.ResetFormIsRefused | src/screens/Home/HomeScreen.js:95-125 | a reset form submitted unchanged is refused with both 'required' messages |
| HomeScreen.OpenEditTaskModal | src/screens/Home/HomeScreen.js:132-141 | `task` becomes the selection and its fields are copied into the form; a falsy priority becomes low, so the form's priority is never empty; the errors are kept |
| HomeScreen.HandleUpdateTask | src/screens/Home/HomeScreen.js:164-174 | validation runs first; a body is built exactly when the form is valid and a task is selected; the body is the form unchanged plus the selected task's id |
| HomeScreen.EditAndSave | src/screens/Home/HomeScreen.js:132-174 | opening a task with an acceptable title and description and saving it unchanged posts its own fields and id |
| HomeScreen.FlipStatus | src/screens/Home/HomeScreen.js:224 | the new status is completed exactly when the old one is not; it is pending exactly when the old one is completed |
| HomeScreen.FlipTwice | src/screens/Home/HomeScreen.js:224 | two flips give completed or pending back; any other status comes back as pending |
| HomeScreen.ToggleTaskStatus | src/screens/Home/HomeScreen.js:222-232 | the body copies title, description, priority and id unchanged and flips the status: a completed task is posted as pending, any other as completed |
| HomeScreen.PriorityColor | src/screens/Home/HomeScreen.js:244-251 | high, medium and low map to `#f44336`, `#ff9800` and `#4caf50`; the grey `#666` is given exactly to every other priority |
| HomeScreen.PriorityColorsDistinct | src/screens/Home/HomeScreen.js:244-251 | the three priorities have three different colours |
| HomeScreen.StatusColor | src/screens/Home/HomeScreen.js:253-255 | `#4caf50` exactly for completed, `#ff9800` exactly for anything else |
| HomeScreen.ToggleChangesStatusColor | src/screens/Home/HomeScreen.js:222-255 | every toggle changes the colour in which it is shown |

## Left out

- React rendering, modals, navigation and `Alert` are not modelled. The terms alert of sign-up is among them; its effect on `valid` is modelled.
- Network I/O is not performed.
  - The refresh `axios.post` and `axiosInstance(originalRequest)` are modelled only by their results (`EndpointReply`) or by the request they send (`Next`).
  - The replayed request's own response is not modelled.
  - The 10-second timeout and the `axios.create` defaults are not modelled.
- Promise scheduling is not modelled. Interleavings are explicit sequences of the `Coordinator` methods. A keychain call takes effect at the moment its `await` resumes.
- The keychain is three in-memory slots. Which call throws is a parameter. The `JSON.stringify` of the user details is not modelled; the details are an opaque string.
- The request interceptor's error handler (`src/services/axios.js:79-82`) is not modelled.
- `AuthClient.Coordinator.ProcessQueue` takes one outcome instead of the pair `(error, token)`. The refresh errors passed to it are always `Error` objects, so they are always truthy and the branch taken is the same.
- Tokens and the endpoint's `data.accessToken` / `data.refreshToken` are strings or missing. A non-string value in the response is not modelled.
- The run in which `saveTokens` throws on its first write is not modelled as a whole. `AuthClient.Coordinator.OnTokensSaved` covers the save's effect on the store in every case. In that case the request interceptor would attach the old token to the replays.
- String lengths count code points, not UTF-16 code units. This affects `SignUpScreen.PasswordCriteria`, `SignUpScreen.FullNameMessageSpec`, `SignUpScreen.PasswordMessageSpec`, `LoginScreen.PasswordMessageSpec` and `HomeScreen.TitleMessageSpec` only for characters outside the Basic Multilingual Plane.
- White space is the full ECMA-262 set (WhiteSpace and LineTerminator), not ASCII only.
- `handleSignup`, `handleLogin`, `fetchTasks`, `handleCreateTask` and `handleDeleteTask` are not modelled. They are network calls with UI side effects.
- The `updatedAt: new Date()` field of the update and toggle bodies is not modelled.
- `src/customHooks/useAxios.js`, `formatDate` and `BASE_URL` in `src/constant/constants.js`, `src/constant/ApiUrl.js`, `src/navigation/RootStack.js` and `App.tsx` are not part of this model.

## Findings

| source | as written | input that shows it | evidently intended | confidence | as-written member | corrected member |
|---|---|---|---|---|---|---|
| src/services/axios.js:112-119 | after a failed refresh, `processQueue` runs before `await clearTokens()`, and `finally` lowers `isRefreshing` without draining the queue again | request A gets a 401 and finds no refresh token; while the tokens are being cleared, request B gets a 401 and is parked; the flag goes down with B still queued, and B is not settled until some later refresh | every request parked during a refresh is settled when that refresh ends | not executed | RefreshRuns.StrandedWaiter | RefreshRuns.LateWaiterRejected |
| src/services/axios.js:96-98 | a parked request is replayed with the new token but is not marked `_retry` | requests A and B get a 401 and B is parked; the refresh succeeds; both replays get a 401 again; A is rejected, but B starts a second refresh | a request is retried after a refresh at most once | not executed | RefreshRuns.ReplayRefreshesAgain | RefreshRuns.ReplayRejectedOnce |

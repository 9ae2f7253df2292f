# Session layer of the diabetes-risk screening client

This project models, in Dafny, the client-side session layer of a web front end
for a diabetes-risk prediction service:

- the **token manager** (`lib/auth.ts`): five keys in the browser's local storage
  (`access_token`, `refresh_token`, `user_data`, `isLoggedIn`, `userName`), the
  getters over them, and the fail-closed refresh of the access token;
- the **prediction form** (`components/sections/FormData.tsx`): clearing the form,
  and submitting it with a local token check, one predict call, and at most one
  refresh-and-retry when the failure message mentions `token` or `expired`;
- the **navigation bar** (`components/layout/Navbar.tsx`): re-reading the session,
  the dropdown and dialog toggles, the logout protocol, and the choice of the
  right-hand button.

Files and modules:

- `api.dfy`, module `Api`: `Option`, the outcome of one HTTP call
  (`ApiResult = Ok(data) | Err(message)`), and the client's fallback messages.
- `auth.dfy`, module `Auth`: the storage as `map<string, Item>`, the value-level
  specification of every token-manager operation (`SetTokens`, `SetUserData`,
  `ClearSession`, `Refresh`, combined in `Step` and `Run`), lemmas about arbitrary
  sequences of operations, and class `TokenManager` whose field `items` is the
  storage and whose methods update it key by key, each proved equal to `Step`.
- `form.dfy`, module `Form`: the substring test `Contains` behind the retry rule;
  the value-level specification of a submit (`SubmitSpec`, with the refresh-and-retry
  branch in `AfterRefresh`) and lemmas about its calls; class `FormData` (`fields`,
  `isLoading`, `error`) with `ClearForm` and `Submit`, the latter proved equal to
  `SubmitSpec`.
- `navbar.dfy`, module `Nav`: class `Navbar` (`isLoggedIn`, `userName`,
  `showDropdown`, `showLogoutDialog`, `isLoggingOut`) and `RenderRightSection`.

How the outside world appears:

- Every server call is an oracle. The operation that makes a call receives, as a
  parameter, the reply the server gives (`Ok(payload)` or `Err(message)`). It
  uses that reply only if it makes the call.
- Each operation returns the list of calls it made and signals it sent
  (`SubmitEvent`, `LogoutEvent`). Its contract states that list exactly, so call
  counts and call arguments are part of what is proved.
- The absence of a browser window is the constant `TokenManager.windowPresent`.
  When it is false, every write is a no-op and every getter returns null.

Two details follow the code:

- `isLoggedIn()` is `!!getAccessToken()`, so a stored empty access token counts
  as logged out, not only a missing one.
- The substring test that triggers a retry is case-sensitive.

## Model

| member | source | states |
|---|---|---|
| `Api.FailureMessage` | lib/api.ts:155-158 | when the error body parses as JSON, the thrown message is its `message` when that is a non-empty string, otherwise the operation's fallback; never the empty string |
| `Auth.AccessToken` | lib/auth.ts:24-29 | without a window the access token reads as null; with one it is present exactly when the key holds text |
| `Auth.RefreshToken` | lib/auth.ts:32-37 | the same for the refresh token |
| `Auth.CachedUser` | lib/auth.ts:60-66 | a returned identity is exactly the stored record; with a window, a stored record is always returned; null when nothing is stored |
| `Auth.LoggedIn` | lib/auth.ts:69-71 | logged in if and only if a window exists and the stored access token is present and non-empty |
| `Auth.SetTokens` | lib/auth.ts:16-21 | afterwards both getters return exactly the saved strings; every other key keeps its item |
| `Auth.SetUserData` | lib/auth.ts:51-57 | afterwards `user_data` holds the record, `isLoggedIn` is "true", `userName` is the record's name; every other key, both tokens included, is unchanged; the flags agree with the identity |
| `Auth.ClearSession` | lib/auth.ts:40-48 | exactly the five session keys are removed; every other key keeps its item |
| `Auth.Refresh` | lib/auth.ts:74-94 | a refresh call is made if and only if a non-empty refresh token is stored, and with that token; with none: null and storage unchanged; on success: the new token is stored and returned and nothing but the access token changes; on failure: the whole session is cleared and null is returned |
| `Auth.Step` | lib/auth.ts:16-94 | without a window no operation changes storage; no operation touches a key outside the five; an operation that drops the access token drops all five keys; well-formedness and flag agreement are preserved |
| `Auth.Run` | lib/auth.ts:16-94 | any sequence of operations preserves well-formedness and the agreement of the legacy flags with the identity |
| `Auth.RunWithoutWindowIsInert` | lib/auth.ts:17-20 | without a window no sequence of operations changes storage, and the user stays logged out |
| `Auth.RunKeepsForeignKeys` | lib/auth.ts:40-48 | no sequence of operations changes a key outside the five |
| `Auth.RefreshTokenOnlyFromSave` | lib/auth.ts:84-91 | along operations with no saveTokens, the refresh token stays the original one or has been removed; a refresh never rewrites it |
| `Auth.RemoveLogsOut` | lib/auth.ts:40-48 | from any storage and after any operations, a final removeTokens leaves both tokens and the identity reading as null and the user logged out |
| `Auth.RemovingKeyByKeyClears` | lib/auth.ts:42-46 | the five successive `removeItem` calls amount to removing exactly the session keys |
| `Auth.ClearSessionIsIdempotent` | lib/auth.ts:40-48 | clearing a cleared storage changes nothing |
| `Auth.RemoveIsIdempotent` | lib/auth.ts:40-48 | removing twice leaves the same storage as removing once |
| `Auth.TokenManager.SaveTokens` | lib/auth.ts:16-21 | storage becomes `Step` of saveTokens; with a window both getters then return the saved strings |
| `Auth.TokenManager.GetAccessToken` | lib/auth.ts:24-29 | returns the access token as `AccessToken` defines it |
| `Auth.TokenManager.GetRefreshToken` | lib/auth.ts:32-37 | returns the refresh token as `RefreshToken` defines it |
| `Auth.TokenManager.RemoveTokens` | lib/auth.ts:40-48 | storage becomes `Step` of removeTokens; removing again changes nothing |
| `Auth.TokenManager.SaveUserData` | lib/auth.ts:51-57 | storage becomes `Step` of saveUserData; getUserData then returns the record; both tokens read as before |
| `Auth.TokenManager.GetUserData` | lib/auth.ts:60-66 | returns the identity as `CachedUser` defines it |
| `Auth.TokenManager.IsLoggedIn` | lib/auth.ts:69-71 | returns `LoggedIn` of the current storage |
| `Auth.TokenManager.RefreshAccessToken` | lib/auth.ts:74-94 | storage, returned token and the refresh call made are exactly those of `Refresh` |
| `Form.Contains` | components/sections/FormData.tsx:93 | true if and only if `sub` occurs in `s` at some index (case-sensitive `includes`) |
| `Form.IsExpiryMessage` | components/sections/FormData.tsx:93 | a failed predict starts a refresh exactly when its message has "token" or "expired" at some index |
| `Form.FallbackIsNoExpiryMessage` | lib/api.ts:155-158 | the predict fallback "Prediction failed", which a failure body without a message yields, contains neither "token" nor "expired", so it never starts a retry |
| `Form.ExpiryTestIsCaseSensitive` | components/sections/FormData.tsx:93 | "Token expired" and "Invalid token" start a retry, "Token invalid" does not |
| `Form.ErrorText` | components/sections/FormData.tsx:108-109 | the shown error is the message when it is non-empty, otherwise "Prediksi gagal. Silakan coba lagi."; never empty |
| `Form.FormData.constructor` | components/sections/FormData.tsx:25-37 | the nine fields start empty, not loading, no error |
| `Form.FormData.ClearForm` | components/sections/FormData.tsx:44-57 | all nine fields become "" and the error is cleared |
| `Form.AfterRefresh` | components/sections/FormData.tsx:94-109 | after an expiry failure and a refresh: storage is what the refresh left; one refresh call exactly when a refresh token was sent; no usable token: "Sesi Anda telah berakhir. Silakan login kembali." and no second predict; otherwise exactly one more predict with the same request and the new token, whose success is delivered last with no error and whose failure shows its message (or the fallback) with nothing delivered |
| `Form.AfterRefreshExtendsAttempt` | components/sections/FormData.tsx:94-103 | the branch only appends to the calls already made, and every predict it appends sends the same request with the refreshed token |
| `Form.SubmitSpec` | components/sections/FormData.tsx:59-113 | no usable token: "Anda harus login terlebih dahulu", no call, storage unchanged; otherwise the first call is a predict with the stored token; a successful first predict is delivered once with nothing else; a failure without "token"/"expired" shows its message (or the fallback) after that single call, storage unchanged; after an expiry failure storage is exactly what the refresh left, so a failed refresh clears the session |
| `Form.SubmitCallBounds` | components/sections/FormData.tsx:88-109 | at most two predicts, one refresh and one delivery; error empty exactly when a result was delivered; a refresh or second predict only after an expiry failure; a refresh without a usable token ends with the session-expired message after one predict |
| `Form.SubmitRetryAfterRefresh` | components/sections/FormData.tsx:88-109 | expiry failure and a refresh with a usable token: the calls are predict, refresh with the stored refresh token, predict with the new token, which is stored; a good retry is delivered as the last event with no error, a failed one shows its message (or the fallback) and delivers nothing |
| `Form.SubmitRetryUsesRefreshedToken` | components/sections/FormData.tsx:89-102 | every predict sends the form's request; a second predict sends the token the refresh returned |
| `Form.FormData.RefreshAndRetry` | components/sections/FormData.tsx:94-107 | the calls made, the error shown and the storage are exactly those of `AfterRefresh` applied to `Refresh` of the storage before |
| `Form.FormData.Submit` | components/sections/FormData.tsx:59-113 | storage, error and calls are exactly those of `SubmitSpec` for the form's current fields, so every property proved of `SubmitSpec` holds of it; `isLoading` ends false and the storage stays well-formed |
| `Nav.DisplayName` | components/layout/Navbar.tsx:29 | the stored name when there is a non-empty one, otherwise "Pengguna"; never empty |
| `Nav.RenderRightSection` | components/layout/Navbar.tsx:128-215 | Register exactly on `/login`; the user menu exactly off the two auth pages when logged in; Login otherwise |
| `Nav.SectionOfAuthPagesIgnoresSession` | components/layout/Navbar.tsx:128-151 | on `/login` and `/register` the button does not depend on the session; a logged-out visitor never sees the user menu |
| `Nav.Navbar.constructor` | components/layout/Navbar.tsx:14-18 | logged out, empty name, dropdown and dialog closed, not logging out |
| `Nav.Navbar.CheckLoginStatus` | components/layout/Navbar.tsx:21-31 | `isLoggedIn` becomes the token manager's answer; when logged in, `userName` becomes the display name of the cached identity; when logged out it is left as it was |
| `Nav.Navbar.ToggleDropdown` | components/layout/Navbar.tsx:88-90 | `showDropdown` is negated |
| `Nav.Navbar.HandleLogoutClick` | components/layout/Navbar.tsx:92-95 | the dropdown is closed and the dialog opened |
| `Nav.Navbar.CancelLogout` | components/layout/Navbar.tsx:123-125 | only the dialog is closed |
| `Nav.Navbar.ConfirmLogout` | components/layout/Navbar.tsx:97-121 | the logout call is made only with a non-empty stored token and with that token; whatever its reply, storage is cleared as by removeTokens, then `authChange` is sent exactly once; the user is logged out, the dialog closed and `isLoggingOut` false |

## Left out

- The HTTP client (`fetch`, headers, form and JSON encoding, the response envelope) is not modelled. `Api.FailureMessage` covers only error bodies that parse as JSON; a rejected `fetch` or an error body that is not JSON throws with the runtime's own message, which may contain "token" and so start a refresh. Every operation takes an arbitrary `Err(message)`, so these messages are covered, but their text is not modelled. Each call is an oracle whose reply is a parameter of the operation that makes it. The register and login calls, and the pages that make them, are not part of this model.
- `JSON.stringify`/`JSON.parse` of the identity is not modelled. `Item.UserJson(u)` stands for the serialized text, which reads back as exactly `u`. Other code writing foreign text under `user_data`, which `JSON.parse` might reject or misread, is excluded by the invariant `WellFormed`.
- A refresh reply without `access_token` is not modelled: in the source it would store the text "undefined". The reply is taken to carry a string.
- The conversion of the nine form strings with `Number(...)` and `|| 0` uses floating point and is not modelled. The predict request is identified with the form fields it is built from.
- `handleInputChange`, which updates one form field by its input name, is not modelled.
- `onPredict` is assumed not to throw. If it threw after the first predict, the inner `catch` would treat that as a failed predict.
- `Nav.Navbar.ConfirmLogout`: the logout reply and `console.error` have no effect on state, so the reply parameter is unused. `router.push("/")` is not modelled. `isLoggingOut` is true only while the call is awaited, which a sequential model does not observe.
- `Form.FormData.Submit`: `isLoading` is true only while calls are awaited, which a sequential model does not observe.
- Event wiring is not modelled: the `storage` and `authChange` listeners that call `checkLoginStatus`, the click-outside listener, navigation and scrolling.
- Interleaving is not modelled: concurrent submits or logouts, and changes made by other tabs while a call is in flight. Each operation runs to completion on its own.
- The landing page, result view, footer, button component, markup and styling hold no session logic and are not part of this model.

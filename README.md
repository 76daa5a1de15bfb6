# AuthFlow session and dialog model

A Dafny model of the client-side authentication core of AuthFlow, a demonstration
front end whose "backend" is simulated in the browser:

- **Session manager** (`AuthProvider`): the current user, its token and a loading flag,
  mirrored into the two key-value store slots `auth_token` and `auth_user`. It covers
  startup rehydration (including recovery from a corrupt stored user), `login`,
  `register`, `logout`, `requestPasswordReset`, `resetPassword` and the derived
  `isAuthenticated`.
- **Two-factor dialog**: the on/off switch, the setup view, and the enable action that
  accepts only the demo code `"123456"`.
- **Email verification dialog**: send a code to an address, then verify any code of
  length 6. Resend clears the code and sends again.
- **Change-password dialog**: the confirmation must match, then the new password must be
  at least 6 long. On success the form is cleared and the dialog closes.

Each component has the same layout:

- a datatype for its state;
- pure step functions (`LoginStep`, `ToggleStep`, `ChangeStep`, ...), one per operation,
  whose contracts state what the operation promises;
- lemmas that relate operations, for example "a session stored by login is rebuilt
  exactly at the next startup";
- a class that holds the source's state in fields. Its methods follow the source
  statement by statement, and each is proved to produce the state its step function
  describes.

Every awaited delay is treated as atomic, so each asynchronous operation is a single
step. Each such method ends with the assignment its `finally` block makes: `isLoading`
is cleared, or `isVerifying` in the email verification handler.

The browser store is a `map<string, string>`. `getItem` is `Lookup` (absent gives
`None`), `setItem` is a map update, and `removeItem` is a key removal. JavaScript
truthiness of `string | null` (present and non-empty) is `Truthy`.

`JSON.stringify` and `JSON.parse` of the user record are modelled by a small codec in
`StoredUser`. It writes an object with the keys `id`, `email` and an optional `name`,
each a quoted string with `"` and `\` escaped. The property the session relies on is
proved: `Parse(Serialise(u)) == Some(u)`. The codec's `Parse` accepts exactly the texts
`Serialise` writes and fails on all other text. Startup treats that failure the way the
source treats the exception `JSON.parse` throws. The texts the codec accepts are not
the texts `JSON.parse` accepts; see "Left out".

String lengths are JavaScript lengths. `.length` counts UTF-16 code units, while a Dafny
`string` counts Unicode scalar values. `JsText.Utf16Length` gives the JavaScript length,
and every length check in the dialogs uses it.

The random parts of ids and tokens are parameters. `idRnd` and `tokenRnd` stand for the
text of `Math.random().toString(36)`. The slicing the source applies to them is modelled
exactly: `substring(2, 9)` for the id and `substring(2)` for the token, clamped as
JavaScript clamps.

The dialogs' `onClose()` callback belongs to the parent, which clears the `isOpen` prop
it passes down. It is modelled as clearing an `isOpen` field. The change-password
handler returns nothing. Its `Verdict` out-value records which notification the attempt
ends with (mismatch, too short, changed).

### User and token are not always held together

One might expect `user` and `token` to be both present or both absent.
The code does not keep this. At startup `setToken(storedToken)` runs before
`JSON.parse` of the stored user. When the parse throws, the token stays set while the
user stays null, and both slots are removed. The model follows the code.
`AuthContext.TokenWithoutUser` exhibits such a state. `AuthContext.StartupCorruptUser`
states the resulting state exactly. `AuthContext.UserImpliesTokenPreserved` proves the
half that does hold: a user is never held without a token.

## Model

| member | source | states |
|---|---|---|
| StoredUser.ParseSerialise | src/contexts/AuthContext.tsx:79 | parsing the text that login/register store for a user gives that user back |
| StoredUser.Serialise | src/contexts/AuthContext.tsx:79 | the stand-in for `JSON.stringify(mockUser)`: the text opens with the record's first key and is never empty, so a stored record passes the truthiness test at line 39 |
| StoredUser.Parse | src/contexts/AuthContext.tsx:42 | the stand-in for `JSON.parse(storedUser)`: a successful parse starts from the record's first key |
| StoredUser.ParseSound | src/contexts/AuthContext.tsx:42 | whatever the stand-in codec parses is the serialised form of the user it returns |
| StoredUser.ParseExactlySerialised | src/contexts/AuthContext.tsx:42 | with the stand-in codec, a stored text parses to a user exactly when it is that user's serialised form |
| StoredUser.ParseRejectsForeignText | src/contexts/AuthContext.tsx:42-46 | the stand-in codec can fail: text that does not open with the record's first key yields no user, which startup handles as the source handles a throw |
| JsText.Utf16Length | src/components/ChangePasswordModal.tsx:42 | JavaScript's `.length`: between the number of characters and twice that, zero only for the empty string |
| JsText.BmpLength | src/components/TwoFactorModal.tsx:184 | for text without characters above U+FFFF, JavaScript's length is the number of characters |
| AuthContext.Lookup | src/contexts/AuthContext.tsx:36-37 | `localStorage.getItem(key)`: the slot's text, or null when the slot is absent |
| AuthContext.Truthy | src/contexts/AuthContext.tsx:39 | JavaScript truthiness of a string or null: present and non-empty (the same test as the `!email`, `!password`, `name` fallback and `!token` checks at lines 64, 112, 122, 177 and 209) |
| AuthContext.SlotsPresent | src/contexts/AuthContext.tsx:39 | `storedToken && storedUser`: both slots hold non-empty text, the condition for rehydrating |
| AuthContext.Initial | src/contexts/AuthContext.tsx:29-31 | the provider starts unauthenticated, with no token, loading, over the given store |
| AuthContext.Session.IsAuthenticated | src/contexts/AuthContext.tsx:237 | `isAuthenticated` is `!!user`: true exactly when a user is held |
| AuthContext.DisplayName | src/contexts/AuthContext.tsx:122 | the register name rule: the given name when present and non-empty, otherwise the local part of the email (the text before its first '@') |
| AuthContext.LocalPart | src/contexts/AuthContext.tsx:72 | the result is the prefix of the email before its first '@' (the whole email when there is none) |
| AuthContext.Substring | src/contexts/AuthContext.tsx:70 | JavaScript substring clamping: a prefix of the text from start whose length is min(end, length) - start, and empty when the text is shorter than start |
| AuthContext.MockId | src/contexts/AuthContext.tsx:70 | the id is "user_" followed by the first min(7, length - 2) characters of the random text after its first two ("user_" alone for shorter text) |
| AuthContext.MockToken | src/contexts/AuthContext.tsx:75 | the token is "mock_token_" followed by the random text after its first two characters ("mock_token_" alone for shorter text) |
| AuthContext.StartupStep | src/contexts/AuthContext.tsx:35-51 | loading ends; the store is either kept or loses both slots; the user changes only when both slots are truthy and then becomes the parse of the stored user; a user never appears without a token |
| AuthContext.SignIn | src/contexts/AuthContext.tsx:77-83 | the commit stores token and serialised user in their slots, sets user and token, and leaves every other slot alone |
| AuthContext.LoginStep | src/contexts/AuthContext.tsx:55-102 | succeeds iff email and password are non-empty; failure changes nothing but loading; success authenticates with user.email == email, name == local part of the email, id == MockId(idRnd), token == MockToken(tokenRnd), both mirrored in the store, every other slot untouched; loading ends on every path |
| AuthContext.RegisterStep | src/contexts/AuthContext.tsx:104-152 | as login, except the name is the given name when present and non-empty, the email's local part otherwise |
| AuthContext.LogoutStep | src/contexts/AuthContext.tsx:154-168 | always unauthenticated with no token, both slots removed, other slots and loading untouched |
| AuthContext.RequestResetStep | src/contexts/AuthContext.tsx:170-200 | returns false exactly when the email is empty; user, token and store never change; loading ends |
| AuthContext.ResetPasswordStep | src/contexts/AuthContext.tsx:202-232 | returns false exactly when the reset token or the password is empty; user, token and store never change; loading ends |
| AuthContext.StartupRestores | src/contexts/AuthContext.tsx:36-42 | with both slots truthy and a parseable user, startup sets user and token from the store and is authenticated |
| AuthContext.StartupWithoutSlots | src/contexts/AuthContext.tsx:36-50 | with a slot missing or empty, startup leaves the initial state except that loading ends |
| AuthContext.StartupCorruptUser | src/contexts/AuthContext.tsx:40-46 | with an unparseable stored user, both slots are removed, no user is set (not authenticated), and the token holds the stored value |
| AuthContext.StartupCorruptIsFinal | src/contexts/AuthContext.tsx:39-46 | after a corrupt record is cleared, the next startup is unauthenticated with no token |
| AuthContext.TokenWithoutUser | src/contexts/AuthContext.tsx:41-42 | some stored state makes startup end with a token and no user |
| AuthContext.PersistedRestores | src/contexts/AuthContext.tsx:36-42 | a session mirrored in the store with a non-empty token is rebuilt exactly at the next startup |
| AuthContext.LoginSurvivesRestart | src/contexts/AuthContext.tsx:78-83 | after a successful login, startup from the resulting store yields the same session |
| AuthContext.RegisterSurvivesRestart | src/contexts/AuthContext.tsx:128-133 | after a successful registration, startup from the resulting store yields the same session |
| AuthContext.LogoutSurvivesRestart | src/contexts/AuthContext.tsx:156-161 | after logout, startup from the resulting store is unauthenticated with no token |
| AuthContext.UserImpliesTokenPreserved | src/contexts/AuthContext.tsx:29-30 | "no user without a token" holds initially and is kept by startup and every operation |
| AuthContext.LoginExample | src/contexts/AuthContext.tsx:64-83 | login("a@b.com", "secret1") succeeds, authenticates user "a" with that email, and leaves a non-empty token slot |
| AuthContext.AuthProvider.constructor | src/contexts/AuthContext.tsx:29-31 | the provider starts with no user, no token and loading set |
| AuthContext.AuthProvider.RestoreSession | src/contexts/AuthContext.tsx:35-51 | the startup effect, taking the token before parsing the user, ends in StartupStep's state |
| AuthContext.AuthProvider.Login | src/contexts/AuthContext.tsx:55-102 | the login handler ends in LoginStep's state and result; on success `isAuthenticated` holds, on failure it is unchanged |
| AuthContext.AuthProvider.Register | src/contexts/AuthContext.tsx:104-152 | the register handler ends in RegisterStep's state and result |
| AuthContext.AuthProvider.Logout | src/contexts/AuthContext.tsx:154-168 | the logout handler ends in LogoutStep's state, and `isAuthenticated` is false |
| AuthContext.AuthProvider.RequestPasswordReset | src/contexts/AuthContext.tsx:170-200 | the reset-request handler ends in RequestResetStep's state and result |
| AuthContext.AuthProvider.ResetPassword | src/contexts/AuthContext.tsx:202-232 | the reset handler ends in ResetPasswordStep's state and result |
| TwoFactorModal.Initial | src/components/TwoFactorModal.tsx:29-32 | a fresh dialog has two-factor off, offers the switch and not the enable action |
| TwoFactorModal.ToggleOffered | src/components/TwoFactorModal.tsx:106-121 | the switch is shown outside the setup view and disabled while loading |
| TwoFactorModal.EnableOffered | src/components/TwoFactorModal.tsx:181-184 | the enable button is shown in the setup view and enabled only when the code's JavaScript length is 6 and nothing loads |
| TwoFactorModal.SwitchOrEnable | src/components/TwoFactorModal.tsx:106-184 | the switch and the enable button are never offered together |
| TwoFactorModal.DemoCodeLength | src/components/TwoFactorModal.tsx:48 | the demo code "123456" has JavaScript length 6, so the enable button accepts it |
| TwoFactorModal.EnterCode | src/components/TwoFactorModal.tsx:160 | entering a code changes only the code |
| TwoFactorModal.DisableStep | src/components/TwoFactorModal.tsx:73-91 | two-factor is off and loading has ended; setup view and code untouched |
| TwoFactorModal.EnableStep | src/components/TwoFactorModal.tsx:42-71 | with code "123456" two-factor is on and setup closes; with any other code both are unchanged; loading ends either way |
| TwoFactorModal.ToggleStep | src/components/TwoFactorModal.tsx:34-40 | toggling to the value held changes nothing; on while off opens setup without enabling; off while on disables, keeps the setup view and ends loading; the code never changes |
| TwoFactorModal.EnableWithDemoCode | src/components/TwoFactorModal.tsx:34-50 | switch on, enter "123456": enabling is offered, succeeds, closes setup, and the switch is offered again |
| TwoFactorModal.WrongCodeAllowsRetry | src/components/TwoFactorModal.tsx:55-60 | a wrong code leaves two-factor off with setup open, and the demo code then enables it |
| TwoFactorModal.OfferedIsNotAccepted | src/components/TwoFactorModal.tsx:181-184 | the enable button is offered for every code of JavaScript length 6, but any code other than the demo code leaves two-factor off and setup open |
| TwoFactorModal.ToggleIdempotent | src/components/TwoFactorModal.tsx:34-39 | toggling twice to the same value equals toggling once |
| TwoFactorModal.EnableThenDisable | src/components/TwoFactorModal.tsx:34-77 | from a fresh dialog: on, demo code, enable gives enabled; switching off then disables |
| TwoFactorModal.TwoFactorDialog.constructor | src/components/TwoFactorModal.tsx:29-32 | disabled, no setup view, empty code, not loading |
| TwoFactorModal.TwoFactorDialog.SetVerificationCode | src/components/TwoFactorModal.tsx:160 | the code input's handler ends in EnterCode's state |
| TwoFactorModal.TwoFactorDialog.HandleToggle | src/components/TwoFactorModal.tsx:34-40 | the switch handler ends in ToggleStep's state |
| TwoFactorModal.TwoFactorDialog.HandleEnable | src/components/TwoFactorModal.tsx:42-71 | the enable handler ends in EnableStep's state |
| TwoFactorModal.TwoFactorDialog.HandleDisable | src/components/TwoFactorModal.tsx:73-91 | the disable handler ends in DisableStep's state |
| EmailVerificationModal.Initial | src/components/EmailVerificationModal.tsx:34-38 | the address is the given email or empty; nothing sent, loading or verifying; empty code |
| EmailVerificationModal.SendOffered | src/components/EmailVerificationModal.tsx:197-200 | the send button is shown before a code is sent and enabled only with a non-empty address while nothing loads |
| EmailVerificationModal.VerifyOffered | src/components/EmailVerificationModal.tsx:205-208 | the verify button is shown once a code is sent and enabled only when the code's JavaScript length is 6 and no verify runs |
| EmailVerificationModal.ResendOffered | src/components/EmailVerificationModal.tsx:179-184 | the resend link is shown once a code is sent and enabled while nothing loads |
| EmailVerificationModal.SendOrVerify | src/components/EmailVerificationModal.tsx:128-208 | sending is never offered together with verifying or resending |
| EmailVerificationModal.EnterEmail | src/components/EmailVerificationModal.tsx:136 | entering an address changes only the address |
| EmailVerificationModal.EnterCode | src/components/EmailVerificationModal.tsx:162 | entering a code changes only the code |
| EmailVerificationModal.SendStep | src/components/EmailVerificationModal.tsx:40-69 | an empty address changes nothing; otherwise the code is marked sent and loading ends |
| EmailVerificationModal.VerifyStep | src/components/EmailVerificationModal.tsx:71-104 | a code whose JavaScript length is not 6 changes nothing; otherwise the dialog closes, sending resets, the code clears and verifying ends |
| EmailVerificationModal.ResendStep | src/components/EmailVerificationModal.tsx:106-109 | the code is cleared, then sending behaves as SendStep: with an empty address nothing else changes; otherwise the code is marked sent and loading ends; address, verifying flag and open flag are kept |
| EmailVerificationModal.VerifyIgnoresContent | src/components/EmailVerificationModal.tsx:86-94 | codes of equal JavaScript length lead to the same state: content is never checked |
| EmailVerificationModal.ResendWithoutEmail | src/components/EmailVerificationModal.tsx:106-108 | resend with an empty address only clears the code |
| EmailVerificationModal.ResendRequiresNewCode | src/components/EmailVerificationModal.tsx:183 | after a resend verifying is not offered until a new code is entered |
| EmailVerificationModal.SendThenVerify | src/components/EmailVerificationModal.tsx:40-104 | send to an address, enter any code of JavaScript length 6, verify: the dialog closes and is back at the address view |
| EmailVerificationModal.VerifyReturnsToSend | src/components/EmailVerificationModal.tsx:197-200 | after verifying, sending is offered again for the same address |
| EmailVerificationModal.VerificationDialog.constructor | src/components/EmailVerificationModal.tsx:34-38 | the dialog starts in Initial's state |
| EmailVerificationModal.VerificationDialog.SetUserEmail | src/components/EmailVerificationModal.tsx:136 | the address field's handler ends in EnterEmail's state |
| EmailVerificationModal.VerificationDialog.SetVerificationCode | src/components/EmailVerificationModal.tsx:162 | the code input's handler ends in EnterCode's state |
| EmailVerificationModal.VerificationDialog.HandleSendCode | src/components/EmailVerificationModal.tsx:40-69 | the send handler ends in SendStep's state |
| EmailVerificationModal.VerificationDialog.HandleVerifyCode | src/components/EmailVerificationModal.tsx:71-104 | the verify handler ends in VerifyStep's state |
| EmailVerificationModal.VerificationDialog.HandleResendCode | src/components/EmailVerificationModal.tsx:106-109 | the resend handler ends in ResendStep's state |
| ChangePasswordModal.Initial | src/components/ChangePasswordModal.tsx:24-30 | a fresh form is not loading, open, and does not offer submit |
| ChangePasswordModal.SubmitOffered | src/components/ChangePasswordModal.tsx:168 | submit is enabled only when all three fields are non-empty and nothing loads |
| ChangePasswordModal.ChangeStep | src/components/ChangePasswordModal.tsx:32-75 | mismatch iff new != confirmation; too short iff they match and the new password's JavaScript length is under 6; a rejection changes nothing; success empties all three fields, ends loading and closes the dialog |
| ChangePasswordModal.MismatchBeforeLength | src/components/ChangePasswordModal.tsx:33-49 | when both checks fail the mismatch rejection wins |
| ChangePasswordModal.CurrentPasswordIgnored | src/components/ChangePasswordModal.tsx:61-65 | the current password has no effect on the outcome |
| ChangePasswordModal.EmptyCurrentPasswordAccepted | src/components/ChangePasswordModal.tsx:168 | submit is not offered with an empty current password, yet the handler itself would accept it |
| ChangePasswordModal.AstralPasswordLongEnough | src/components/ChangePasswordModal.tsx:42 | a password of three characters above U+FFFF is six UTF-16 units long and is accepted |
| ChangePasswordModal.ChangedFormNotResubmittable | src/components/ChangePasswordModal.tsx:61-64 | after success the form is back to its initial contents and submit is no longer offered |
| ChangePasswordModal.PasswordDialog.constructor | src/components/ChangePasswordModal.tsx:24-30 | three empty fields, not loading |
| ChangePasswordModal.PasswordDialog.SetFields | src/components/ChangePasswordModal.tsx:94-144 | the three input handlers set the fields and nothing else |
| ChangePasswordModal.PasswordDialog.HandleChangePassword | src/components/ChangePasswordModal.tsx:32-75 | the handler ends in ChangeStep's state and verdict |

## Left out

- Rendering, layout, icons and the show/hide-password toggles of every dialog: presentation only.
- Toast notifications: observational, they change no state. The change-password verdict keeps only which toast fires.
- The `catch` branches of the dialogs' handlers: no statement in their `try` blocks can throw once the delay is taken as atomic.
- `setTimeout` delays and the async structure, and the last-writer-wins race on `isLoading` between overlapping calls: concurrency, not modelled.
- React's batched `setState`: each setter is an immediate assignment.
- `Math.random()`: its radix-36 text is a parameter; no distribution is modelled.
- StoredUser.Parse: the stand-in codec accepts only the exact text `Serialise` writes. `JSON.parse` also accepts other valid JSON for the same record: added whitespace, another key order, `\u` and other escapes, extra keys. On such stored text the model's startup treats the record as corrupt and clears both slots, where the source restores it. Stored text that `JSON.parse` turns into a non-object (such as `null` or a number) is not modelled either: `Parse` returns a user or fails. The stand-in also accepts text `JSON.parse` rejects: `Serialise` writes characters U+0000 to U+001F raw inside strings and `Parse` accepts them, where `JSON.stringify` escapes them and `JSON.parse` throws on them raw. On stored text holding such a raw character, the model's startup restores a user, where the source takes the catch branch, clears both slots and holds the token in state with no user.
- ParseRejectsForeignText: holds of the stand-in codec only. `JSON.parse` throws on text that is not JSON at all, but not on every text this lemma covers.
- `useAuth` and the context plumbing, the pages' zod form schemas and navigation: routing and library glue.
- `console.error` on a corrupt stored user: logging only.
- The code input's six-slot limit (`maxLength`): a property of the input widget; the model accepts any entered text, and the length-6 checks in the handlers and buttons are modelled.

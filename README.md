# Session and form logic of the Connectify mobile client

This project models, in Dafny, the parts of the Connectify React Native client
that carry logic rather than layout:

- **The reducer-based session store** (`src/contexts/AuthContext.tsx`). A pure
  reducer over `{isLoading, isSignout, userToken, user}` with the actions
  `RESTORE_TOKEN`, `SIGN_IN`, `SIGN_OUT` and `SIGN_UP`. A provider persists the
  session under the keys `"userToken"` and `"user"` before it dispatches.
  This module is not the one the app mounts.
- **The token session store** (`src/context/AuthContext.tsx`). This is the one
  the app mounts. It keeps one key, `"@Auth:token"`. The user is the decoded
  token, and `signed` is derived from the user.
- **The root routing decision** (`src/navigation/RootNavigator.tsx`). It shows
  the loading view, the `Main` stack or the `Auth` stack.
- **The registration form** (`src/screens/auth/RegisterScreen.tsx`). Its field
  rules, and what a submit does with the server's reply.
- **The profile edit form** (`src/components/profile/EditForm.tsx`). Its
  default values, field rules, multipart body and submit sequence.
- **The user list** (`src/screens/main/ExploreScreen.tsx`). How `fetchUsers`
  turns a reply into the `users`, `error` and `loading` state, and which view
  is rendered from that state.

The device store (AsyncStorage) is the class `Storage.KeyValueStore` over a
`map<string, string>`. Each `getItem`, `setItem` and `removeItem` may be
rejected. The model chooses the outcome nondeterministically, so every
caller's contract covers both outcomes. A rejected call changes nothing. Each
provider operation returns an outcome value saying which await was rejected
or which call threw (`StoreSteps`, `RestoreOutcome`, `LoadOutcome`,
`SignInOutcome`), or a boolean where there is a single await (the token
store's `signOut`), so partial persistence is stated exactly.

`JSON.parse`, `JSON.stringify` and `jwtDecode` are function-valued
parameters. `parse(s)` is `None` exactly when `JSON.parse` throws.
`decode(t)` is `None` exactly when `jwtDecode` throws. The network is an
abstract reply value, `Http.Fetched`: the fetch rejected, or a status flag and
the outcome of `response.json()`. Alerts and navigation become outcome values.

String lengths in `minLength` / `maxLength` are UTF-16 code units, as
JavaScript counts them (`FormRules.Utf16Length`). The two regular expressions
are written out as predicates over index splits:
`FormRules.EmailPattern` and `FormRules.ImageUrlPattern`.

Two places where the code has no fail-safe: an unguarded restore read, and
no rollback of a half-done write. The model follows the code in both:

- The token store's load does not guard its store read. A rejected read, or a
  rejected cleanup of a bad token, leaves `loading` true, and the root stays
  on the loading view (`RootNavigator.ColdStart`).
- Neither store rolls back a half-done write. After a sign-in whose second
  write was rejected, the reducer store restores the new token with no user,
  or with whatever earlier "user" string was still stored
  (`ReducerSession.HalfWrittenSessionRestores`). The token store keeps a token
  whose decoding failed (`TokenSession.AuthProvider.SignIn`).

## Model

| member | source | states |
|---|---|---|
| `Storage.KeyValueStore.GetItem` | src/context/AuthContext.tsx:21 | A resolved read yields the stored string, or None when the key is absent. A read may be rejected instead. |
| `Storage.KeyValueStore.SetItem` | src/contexts/AuthContext.tsx:74-75 | A completed write overwrites exactly that key. A rejected write leaves the store unchanged. |
| `Storage.KeyValueStore.RemoveItem` | src/contexts/AuthContext.tsx:83-84 | A completed removal deletes exactly that key. A rejected removal leaves the store unchanged. |
| `ReducerSession.AuthReducer` | src/contexts/AuthContext.tsx:13-44 | Every action replaces the token/user pair with its own payload. Only RESTORE_TOKEN ends loading, and no action starts it again. SIGN_OUT sets isSignout, SIGN_IN/SIGN_UP clear it, and RESTORE_TOKEN keeps it. |
| `ReducerSession.RestoreTokenEffect` | src/contexts/AuthContext.tsx:15-21 | RESTORE_TOKEN sets the token and user from the action and sets isLoading to false. isSignout is unchanged. |
| `ReducerSession.SignInSignUpAgree` | src/contexts/AuthContext.tsx:22-42 | SIGN_IN and SIGN_UP give the same state: isSignout false, token and user from the action, isLoading unchanged. |
| `ReducerSession.SignOutIdempotent` | src/contexts/AuthContext.tsx:29-35 | SIGN_OUT clears token and user, sets isSignout, and keeps isLoading. Applying it twice equals applying it once. |
| `ReducerSession.PairingNotEnforced` | src/contexts/AuthContext.tsx:15-21 | SIGN_IN, SIGN_UP and SIGN_OUT leave token and user both present or both absent. RESTORE_TOKEN can install a token with no user. |
| `ReducerSession.LoadingEndsOnlyByRestore` | src/contexts/AuthContext.tsx:13-44 | After any run of dispatches, loading is still on exactly when it was on at the start and no RESTORE_TOKEN was dispatched. |
| `ReducerSession.LastActionDecidesSession` | src/contexts/AuthContext.tsx:13-44 | After a non-empty run of dispatches, the token/user pair is the payload of the last action. |
| `ReducerSession.ReadSession` | src/contexts/AuthContext.tsx:57-59 | When both reads succeed: the token is whatever is stored under "userToken". The user is parsed only from a non-empty "user" string, and is null without one. A parse that throws yields no pair. |
| `ReducerSession.AuthProvider.constructor` | src/contexts/AuthContext.tsx:47-52 | The initial state is isLoading true, isSignout false, token null, user null. |
| `ReducerSession.AuthProvider.Dispatch` | src/contexts/AuthContext.tsx:47 | The new state is the reducer applied to the old state and the action. |
| `ReducerSession.AuthProvider.Bootstrap` | src/contexts/AuthContext.tsx:54-65 | Always ends with isLoading false and isSignout unchanged. The outcome says which step ended it: a full restore installs exactly what ReadSession reads; a rejected token read, a rejected user read, or a throwing parse installs (null, null). A throwing parse happens exactly where ReadSession yields no pair, and then no restore is reported. The store is not written. |
| `ReducerSession.AuthProvider.SaveAndDispatch` | src/contexts/AuthContext.tsx:72-80 | Writes "userToken" then "user". It dispatches only after both writes succeed. If the first write is rejected nothing changes; if the second is, the state is unchanged but the token stays written (`SaveSteps`, shared with SignIn and SignUp). No key other than the two session keys changes. |
| `ReducerSession.AuthProvider.SignIn` | src/contexts/AuthContext.tsx:72-80 | Dispatches SIGN_IN only after both writes succeed. On a rejection the state is unchanged, and only the first write may have persisted. No key other than the two session keys changes. |
| `ReducerSession.AuthProvider.SignUp` | src/contexts/AuthContext.tsx:90-98 | Same as SignIn, dispatching SIGN_UP. |
| `ReducerSession.AuthProvider.SignOut` | src/contexts/AuthContext.tsx:81-89 | Removes "userToken" then "user", then dispatches SIGN_OUT. A rejection means no dispatch, and only the first removal may have happened. No other key changes. |
| `ReducerSession.SavedSessionRestores` | src/contexts/AuthContext.tsx:72-80 | The entries a sign-in writes restore as the same token and user, when parse inverts stringify. |
| `ReducerSession.RemovedSessionRestoresNothing` | src/contexts/AuthContext.tsx:81-89 | The entries left by sign-out restore as (null, null). |
| `ReducerSession.HalfWrittenSessionRestores` | src/contexts/AuthContext.tsx:74-75 | After a sign-in whose second write was rejected, a later bootstrap reads the new token with no user when no non-empty "user" string was stored. When an earlier one was stored, it reads the new token paired with that stale user, or no pair when it does not parse. |
| `ReducerSession.RestartAfterSignIn` | src/contexts/AuthContext.tsx:54-80 | Sign in, then bootstrap a new provider on the same store. If every store call succeeded, the result is (loaded, not signed out, token, user). |
| `ReducerSession.RestartAfterSignOut` | src/contexts/AuthContext.tsx:54-89 | Sign out twice on one provider, then bootstrap a new provider on the same store. After a completed first sign-out the second leaves the state as it was. Once either sign-out completed, the store is the initial one less both session keys, and the restart restores no session (loaded, not signed out, null, null). |
| `TokenSession.StoredUser` | src/context/AuthContext.tsx:20-31 | A load finds a user exactly when a truthy token is stored and it decodes. That user is the decoded token. |
| `TokenSession.AuthProvider.constructor` | src/context/AuthContext.tsx:16-17 | The initial state is user null and loading true. |
| `TokenSession.AuthProvider.Signed` | src/context/AuthContext.tsx:48 | signed is exactly "user is not null". It is computed from user, never stored. |
| `TokenSession.AuthProvider.LoadStorageData` | src/context/AuthContext.tsx:20-31 | A decodable stored token becomes the user. An undecodable one is removed and the user is unchanged. No token: nothing changes. Each of these ends loading. A rejected read, or a rejected removal, leaves loading, user and store as they were. |
| `TokenSession.AuthProvider.SignIn` | src/context/AuthContext.tsx:36-40 | The token is written before decoding. It becomes the user only if it decodes. If decoding throws, the token stays stored and user is unchanged. A rejected write changes nothing. |
| `TokenSession.AuthProvider.SignOut` | src/context/AuthContext.tsx:42-45 | Removes "@Auth:token" and sets user to null. A rejected removal changes nothing. |
| `TokenSession.SignedInTokenReloads` | src/context/AuthContext.tsx:21-25 | A token that sign-in stored and decoded is decoded to the same user by a later load. |
| `TokenSession.UndecodableTokenIsCleared` | src/context/AuthContext.tsx:26-28 | A token that sign-in stored but could not decode yields no user at a later load, and counts as corrupt when non-empty, so the load removes it. |
| `TokenSession.SignedOutStoreLoadsNothing` | src/context/AuthContext.tsx:42-45 | After sign-out a load finds no user and finds no corrupt token to clean up. |
| `TokenSession.RestartAfterSignIn` | src/context/AuthContext.tsx:20-40 | Sign in, then load in a new provider on the same store. If decoding succeeded, the restart is signed in as decode(token). If decoding threw, the restart is signed out and its load removes a non-empty token, leaving the initial store less "@Auth:token" (an empty token is falsy and stays). |
| `TokenSession.RestartAfterSignOut` | src/context/AuthContext.tsx:20-45 | Sign out twice, then load in a new provider. Once either removal completed, the store is the initial one less "@Auth:token", the load never fails on a cleanup, and a completed load is not signed in. |
| `RootNavigator.SelectRoot` | src/navigation/RootNavigator.tsx:15-26 | While loading, the loading view is shown whatever signed is. Otherwise there is one stack with one screen: Main when signed, Auth when not. |
| `RootNavigator.ExactlyOneStack` | src/navigation/RootNavigator.tsx:22-26 | When not loading, exactly one of Main and Auth is offered. |
| `RootNavigator.ColdStart` | src/navigation/RootNavigator.tsx:12-17 | After a completed load, Main is shown exactly when the store held a decodable token, and Auth otherwise. After a rejected read or cleanup, the loading view stays. |
| `FormRules.Utf16Length` | src/screens/auth/RegisterScreen.tsx:107-110 | Length in UTF-16 code units: between the number of characters and twice that. It equals the number of characters exactly when all characters are in the Basic Multilingual Plane. |
| `FormRules.EmailHasOneAt` | src/screens/auth/RegisterScreen.tsx:84 | An address matching the email pattern has exactly one "@". |
| `FormRules.EmailDotIsLast` | src/screens/auth/RegisterScreen.tsx:84 | The dot before the top-level domain is the last dot of the address. |
| `FormRules.RequiredMinLength` | src/screens/auth/RegisterScreen.tsx:105-111 | The shared "required, then minimum length" rule. An empty value gives the required message. Otherwise the value is valid exactly when it has at least `min` UTF-16 code units, and gives the too-short message otherwise. |
| `FormRules.RequiredEmail` | src/screens/auth/RegisterScreen.tsx:81-86 | The shared "required, then email pattern" rule. An empty value gives the required message. Otherwise the value is valid exactly when it matches local@domain.tld (case-insensitive), and gives the invalid message otherwise. |
| `RegisterScreen.UsernameError` | src/screens/auth/RegisterScreen.tsx:63-65 | The name is valid exactly when non-empty. The only error is "Name is required". |
| `RegisterScreen.EmailError` | src/screens/auth/RegisterScreen.tsx:81-86 | An empty value gives "Email is required". A non-empty value is valid exactly when it matches the case-insensitive local@domain.tld pattern, and gives "Invalid email address" otherwise. |
| `RegisterScreen.PasswordError` | src/screens/auth/RegisterScreen.tsx:105-111 | An empty value gives "Password is required". Otherwise the value is valid exactly when it has at least 6 UTF-16 code units. |
| `RegisterScreen.ConfirmPasswordError` | src/screens/auth/RegisterScreen.tsx:128-131 | An empty value gives the required message. Otherwise the value is valid exactly when it equals the password, and gives "Passwords do not match" otherwise. |
| `RegisterScreen.EmailExamples` | src/screens/auth/RegisterScreen.tsx:84 | "ana@example.com" passes the email rule. "ana@example" fails it with the pattern message. |
| `RegisterScreen.OnSubmit` | src/screens/auth/RegisterScreen.tsx:40-53 | A truthy json.success navigates to Login, whatever the HTTP status. Otherwise a Registration Error alert shows json.message, or the default when it is empty. Anything thrown shows the connection-error alert. This includes a null body, whose success field cannot be read. |
| `RegisterScreen.HandleSubmit` | src/screens/auth/RegisterScreen.tsx:146-148 | A form with any field error is not submitted. For a valid form every OnSubmit result clause holds: Login exactly on a truthy json.success, the connection alert exactly when something threw, otherwise the Registration Error alert with json.message or the default, and a non-empty alert message. |
| `EditForm.DefaultValues` | src/components/profile/EditForm.tsx:29-34 | A present field is kept verbatim. A form field is "" exactly when the user is missing, that field is missing, or the field is "". |
| `EditForm.DefaultsValidIff` | src/components/profile/EditForm.tsx:29-34 | The defaults of a user pass every field rule exactly when its name and email are present and valid, and its bio and image are missing or valid. |
| `EditForm.UsernameError` | src/components/profile/EditForm.tsx:92-97 | An empty value gives the required message. Otherwise the value is valid exactly when it has at least 2 UTF-16 code units. |
| `EditForm.EmailError` | src/components/profile/EditForm.tsx:117-121 | The same rule as registration, with this form's messages. |
| `EditForm.BioError` | src/components/profile/EditForm.tsx:144-148 | The bio is valid exactly when it has at most 500 UTF-16 code units. The empty bio is valid. |
| `EditForm.ImageError` | src/components/profile/EditForm.tsx:170-174 | The image field is valid exactly when it is empty or matches the URL pattern. |
| `EditForm.BlankDefaultsAreInvalid` | src/components/profile/EditForm.tsx:92-97 | The defaults for a missing user fail validation, because the name is required. |
| `EditForm.BuildFormData` | src/components/profile/EditForm.tsx:50-56 | The parts are username, email and bio in that order, followed by image only when it is non-empty. |
| `EditForm.MultipartIsDetermined` | src/components/profile/EditForm.tsx:50-56 | The multipart body is fully determined by the form data. Its field names are username, email, bio, plus image when it is non-empty. |
| `EditForm.ProfileEditor.constructor` | src/components/profile/EditForm.tsx:26 | isLoading starts false. |
| `EditForm.ProfileEditor.OnSubmit` | src/components/profile/EditForm.tsx:39-86 | Stated by `SubmitResult`. No truthy stored token: fails with "Token d'authentification non trouvé" (or the store's rejection) and sends no request; short of a rejected read, that message appears exactly when no token is stored. An undecodable token fails with the decode error and sends nothing. A decodable token is sent, unless the read was rejected, with the ordered multipart body. A sent request ends as: success exactly when response.ok and the reply parsed; the network error when fetch rejected; the JSON error when the reply did not parse; the null-access error for a non-ok null body; otherwise json.message, or the default when empty. isLoading is false afterwards in every case. |
| `EditForm.ProfileEditor.HandleSubmit` | src/components/profile/EditForm.tsx:203-205 | An invalid form is not submitted and isLoading is untouched. For a valid form isLoading ends false and every OnSubmit result clause (`SubmitResult`) holds. |
| `ExploreScreen.SomeHasId` | src/screens/main/ExploreScreen.tsx:42 | True exactly when some element of the list is an object with an "id" key. |
| `ExploreScreen.ViewOf` | src/screens/main/ExploreScreen.tsx:138-177 | The render order is: spinner while loading, then a truthy error, then the empty view when users is empty, then the whole list. |
| `ExploreScreen.Explorer.constructor` | src/screens/main/ExploreScreen.tsx:23-26 | Starts with no users, no error, and loading on. |
| `ExploreScreen.Explorer.FetchUsers` | src/screens/main/ExploreScreen.tsx:28-61 | A valid list sets users to the whole list when any element has an id, and to [] otherwise, with no error. An ok reply with a bad shape sets the format error. A non-ok reply sets json.message or the default. Anything thrown sets the network message. Error cases keep users. loading is false after every path. Any error set is non-empty and is the one rendered. |
| `ExploreScreen.IdlessListShowsEmpty` | src/screens/main/ExploreScreen.tsx:45-48 | A well-formed list in which no element has an id, the empty list included, renders the empty view with no error. |
| `ExploreScreen.ListWithIdShownWhole` | src/screens/main/ExploreScreen.tsx:42-44 | If one element has an id, ViewOf picks the list branch with the unfiltered list, elements without one included. |

## Left out

- Network and hosts: every `fetch`, its URL, headers and JSON request body. The reply is an input value (`Http.Fetched`).
- `Alert.alert`, `console` logging and navigation-library calls. They become outcome values (`RegisterOutcome`, `UpdateOutcome`) or are dropped.
- Asynchrony and interleaving: operations are modelled as serialized. A `signIn` overlapping a `signOut` is not modelled.
- Form library internals: re-validation modes, focus and error display. Only the order in which the rules are checked (required, length, pattern, validate) is kept.
- JSON and JWT internals: `JSON.parse`, `JSON.stringify` and `jwtDecode` are opaque parameters.
- ReducerSession.ReadSession: a stored "user" string whose JSON parses to null (such as "null") restores a null user in the source. The parameter `parse` cannot express that case.
- TokenSession.AuthProvider.LoadStorageData: a decoded payload that is itself falsy would leave `signed` false. Decoded payloads are taken to be objects.
- Http.Body keeps only the truthiness of `success` and the string `message`. A non-string truthy `message` is not modelled. A JSON reply that is neither null nor an object (a number, string or array) is represented as an object with no fields. That agrees with the source for every property the screens read.
- EditForm.ProfileEditor.OnSubmit: the alert texts of errors raised by the store, `jwtDecode`, `fetch`, `response.json()` and null property access are library messages. They are named by kind, not by text. The decoded `id` is read in the source but never used, and is not modelled.
- ExploreScreen.Explorer.FetchUsers: the format error quotes `JSON.stringify(data)` of the actual reply (src/screens/main/ExploreScreen.tsx:50). The model's `stringify` sees only the represented body, so a non-object reply is quoted as the model represents it, not as the server sent it.
- ExploreScreen.ListWithIdShownWhole: the list branch is chosen, but rendering it is not modelled. In the source `keyExtractor` calls `item.id.toString()`, which throws for an element without an id, and `item.username` throws for a null element (src/screens/main/ExploreScreen.tsx:89, 172). A mixed list therefore passes the check at line 42 and then fails at render.
- ExploreScreen.Explorer.FetchUsers: the intermediate state between its first assignments and `finally` (loading on, error cleared) is not stated in the contract. The clearing is only visible in the success paths, which end with no error.
- Store failures are all-or-nothing per call. A reply is one value per submit.
- `formatDate` (locale date formatting), the user detail modal, `refreshing` / pull-to-refresh, styles and layout are not part of this model.
- `useAuth` is not part of this model. The reducer store's `useAuth` throws outside a provider. The token store's never does, because its default context `{}` is truthy.
- The screens with no logic are not part of this model: `HomeScreen`, `ProfileScreen`, `EditProfileScreen`, `SettingsScreen`, `App.tsx`, the tab and stack navigators, and the type files.

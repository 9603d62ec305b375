# Krishi Sethu mobile: session context, route guard and form checks

A Dafny model of the logic inside the Krishi Sethu farming app. The rest of the app is
screens and styling. The model covers four things:

- **The authentication context** (`context/AuthContext.tsx`). `AuthProvider` holds `user`,
  `predictions`, `isLoading` and `authIsLoading`. Its operations are `signIn`, `signUp`,
  `logout`, `predictCrop`, `savePrediction`, `getHistory` and the start-up `loadUser` effect.
  The app talks to an in-file mock API; its decisions are pure functions here (`MockSignIn`,
  `MockSignUp`, `MockPredictCrop`, `MockHistory`).
  The provider is the class `AuthContext.AuthProvider`. Each method does the same assignments
  the source does. Each is proved against a value-level specification:
  `Step(snapshot, event)` for one operation and `Run` for a sequence of operations.
  Lemmas about `Step` and `Run` state what the provider promises across operations.
  Each awaited API value is a method parameter, so a method holds for every outcome the API
  could return. The awaited values are the authentication result, the history list and the
  settled crop prediction.
  A ghost field `loadingWrites` records every value passed to `setIsLoading`. That is how the
  model states "isLoading is true during the call and false after it".
- **The route guard** (`app/_layout.tsx`). While `authIsLoading` holds, the splash screen is
  shown and no redirect happens. After that, a signed-in user outside the `(tabs)` group is sent
  to `/(tabs)`, and an anonymous user inside it is sent to `/signin`. Whenever a user is
  present, the navigator calls `fetchLocationAndWeather`, which the context does not provide
  (see Findings).
- **The prediction form** (`app/modal.tsx`). A field is missing when its text trims to nothing.
  JavaScript's `trim` is modelled in module `JsText`. When nothing is missing, the handler calls
  `predictCrop`, then `savePrediction` once, then replaces the route with `/result` carrying the
  same record. If the prediction call rejects, it alerts and saves nothing.
- **The sign-in and sign-up forms** (`app/signin.tsx`, `app/signup.tsx`). Their checks
  return early, and a passing form calls the context. Lemmas show that every form these checks
  let through is one the mock API accepts.

## Model

| member | source | states |
|---|---|---|
| `AuthContext.MockSignIn` | context/AuthContext.tsx:26-36 | succeeds exactly when email and password are both non-empty; a success carries the supplied email; a failure carries no user and the message 'Invalid credentials' |
| `AuthContext.MockSignUp` | context/AuthContext.tsx:37-49 | succeeds exactly when name, email and password are non-empty and the passwords match; a success carries the supplied name and email; a failure reports 'Passwords do not match' whenever the passwords differ (even with a field empty), else 'Please fill all fields' |
| `AuthContext.ScaledDraw` | context/AuthContext.tsx:54-55 | `Math.floor(Math.random() * n)` always picks a valid index/offset in [0, n) |
| `AuthContext.MockPredictCrop` | context/AuthContext.tsx:50-59 | the predicted crop is one of Rice, Wheat, Maize with a confidence inside that crop's range, so within 75..95; the id is the clock text |
| `AuthContext.MockHistory` | context/AuthContext.tsx:60-69 | the mock history is two records with distinct ids, each a crop of the prediction table with a confidence inside that crop's range |
| `AuthContext.Initial` | context/AuthContext.tsx:98-101 | the four `useState` initial values: no user, no predictions, isLoading false, authIsLoading true |
| `AuthContext.Accepted` | context/AuthContext.tsx:122 | the provider installs a result only if it succeeded and carries a user; an unsuccessful result is never installed (the same test stands at line 133) |
| `AuthContext.Step` | context/AuthContext.tsx:98-151 | only the start-up effect touches authIsLoading, and only to clear it; the user changes only on start-up, logout or an accepted authentication; signIn/signUp/predictCrop end with isLoading false, the other operations leave it alone |
| `AuthContext.StartupSettles` | context/AuthContext.tsx:98-110 | a fresh provider has no user, no predictions, isLoading false and authIsLoading true; after the start-up effect authIsLoading is false and the user is still null |
| `AuthContext.AuthOutcome` | context/AuthContext.tsx:119-140 | an accepted result installs its user and the fetched history; a failed one leaves user and predictions unchanged; both end with isLoading false and authIsLoading untouched |
| `AuthContext.LogoutIdempotent` | context/AuthContext.tsx:141-144 | logout yields no user and an empty list with both loading flags kept, and a second logout changes nothing |
| `AuthContext.SavePrepends` | context/AuthContext.tsx:149-151 | saving puts the record at the head, grows the list by one and keeps the old entries in order behind it |
| `AuthContext.HistoryReplacesSaved` | context/AuthContext.tsx:113-151 | a history fetch after a save leaves exactly the fetched list; a saved record missing from it disappears |
| `AuthContext.NoInventedPredictions` | context/AuthContext.tsx:113-151 | after any sequence of operations, every listed prediction was there before, or was saved, or came in a fetched history |
| `AuthContext.UserOrigin` | context/AuthContext.tsx:98-144 | after any sequence of operations, a signed-in user was there before or was installed by an accepted sign-in/sign-up |
| `AuthContext.AuthLoadingClearsOnce` | context/AuthContext.tsx:101-110 | after any sequence of operations, authIsLoading holds exactly when it held at the start and the start-up effect has not run |
| `AuthContext.LoadingSettles` | context/AuthContext.tsx:119-148 | once every operation of a sequence has completed, isLoading is false again |
| `AuthContext.AlertText` | context/AuthContext.tsx:126 | `alert(result.message)` shows the message, or "undefined" when the result has none (the same call stands at line 137) |
| `AuthContext.AuthProvider.constructor` | context/AuthContext.tsx:98-101 | the initial state: no user, empty list, isLoading false, authIsLoading true |
| `AuthContext.AuthProvider.LoadUser` | context/AuthContext.tsx:103-110 | user null and authIsLoading false; the list and isLoading are kept |
| `AuthContext.AuthProvider.GetHistory` | context/AuthContext.tsx:113-116 | the list becomes the fetched history, replaced wholesale with no merge |
| `AuthContext.AuthProvider.SignIn` | context/AuthContext.tsx:119-129 | isLoading is set true then false; an accepted result installs user and history silently; any other alerts its message and keeps user and list |
| `AuthContext.AuthProvider.SignUp` | context/AuthContext.tsx:130-140 | the same contract as SignIn, for the registration result |
| `AuthContext.AuthProvider.Logout` | context/AuthContext.tsx:141-144 | user null, list empty, both loading flags unchanged |
| `AuthContext.AuthProvider.PredictCrop` | context/AuthContext.tsx:145-148 | returns the API outcome unchanged; isLoading is set true then false whether the call resolved or rejected |
| `AuthContext.AuthProvider.SavePrediction` | context/AuthContext.tsx:149-151 | the list becomes the record followed by the old list; user and isLoading unchanged |
| `RootLayout.RedirectFor` | app/_layout.tsx:13-22 | no redirect while authIsLoading; otherwise `/(tabs)` exactly when a user is present outside the tab group, `/signin` exactly when no user is inside it, and stay exactly when presence and location agree |
| `RootLayout.InTabsGroup` | app/_layout.tsx:15 | in the tab group exactly when the first segment is '(tabs)'; an empty segment list is outside it |
| `RootLayout.Path` | app/_layout.tsx:17-20 | the redirect to the tabs replaces the route with '/(tabs)', the one to sign-in with '/signin' |
| `RootLayout.WeatherEffect` | app/_layout.tsx:27-31 | no call without a user; with a user, the fetch is called when the context provides it and a TypeError is thrown when it does not |
| `RootLayout.WeatherEffectThrowsAsWritten` | app/_layout.tsx:9-29 | with the members the context actually provides, every render with a signed-in user throws in the weather effect |
| `RootLayout.IntendedMembers` | app/_layout.tsx:9 | the members the navigator expects: all the context provides, plus `fetchLocationAndWeather` |
| `RootLayout.WeatherEffectIntended` | app/_layout.tsx:27-31 | with the weather fetch provided, the effect never throws and fetches exactly when a user is present |
| `RootLayout.Render` | app/_layout.tsx:13-35 | the splash screen shows exactly while authIsLoading, and then no redirect happens; with the intended context, the weather effect fetches exactly when a user is present and never throws |
| `RootLayout.RedirectSettles` | app/_layout.tsx:17-21 | once the router shows the redirect's target, the guard decides to stay |
| `JsText.TrimStart` | app/modal.tsx:33 | the result is the suffix of the input that starts at its first non-white-space character; everything dropped is white space |
| `JsText.TrimEnd` | app/modal.tsx:33 | the result is the prefix of the input that ends at its last non-white-space character; everything dropped is white space |
| `JsText.Trim` | app/modal.tsx:33 | `s.trim()` is a slice `s[i..j]` where everything before `i` and from `j` on is white space, and a non-empty result starts and ends with a character that is not white space |
| `JsText.TrimEmptyIffBlank` | app/modal.tsx:33 | `s.trim()` is empty exactly when `s` consists of white space only |
| `PredictScreen.EmptyForm` | app/modal.tsx:21-29 | the initial form has every required field, each empty |
| `PredictScreen.UpdateField` | app/modal.tsx:85 | a keystroke sets its own field and leaves every other field as it was |
| `PredictScreen.TrimsToEmpty` | app/modal.tsx:33 | `!value.trim()` holds exactly when the value is blank (empty or white space only) |
| `PredictScreen.Missing` | app/modal.tsx:32-33 | a key is reported missing exactly when it is required and its value trims to empty; no more keys than required |
| `PredictScreen.MissingFields` | app/modal.tsx:32-33 | a field is reported missing exactly when it is one of the seven required keys and its value trims to empty; at most seven are reported |
| `PredictScreen.NothingMissingIffAllFilled` | app/modal.tsx:32-35 | the prediction goes ahead exactly when all seven fields hold a character other than white space |
| `PredictScreen.BlankFieldIsMissing` | app/modal.tsx:33 | a field holding only white space counts as missing |
| `PredictScreen.NewPrediction` | app/modal.tsx:42-56 | the record carries the returned id, crop and confidence, today's date and the parsed readings |
| `PredictScreen.PredictAndSave` | app/modal.tsx:40-65 | predictCrop first; on success savePrediction exactly once with the record built from the result, then '/result' with that same record, the list gaining that record at its head; on failure only the failure alert, nothing saved, no navigation; isLoading written true then false either way |
| `PredictScreen.HandlePrediction` | app/modal.tsx:31-65 | with a field missing: the missing-information alert and no call at all; otherwise predictCrop, then on success savePrediction exactly once with the record carrying the returned id, crop and confidence, then '/result' with that same record, and the list gains that record at its head; on failure: the failure alert, nothing saved, no navigation; a press while isLoading does nothing |
| `SignInScreen.ValidateSignIn` | app/signin.tsx:13-18 | passes exactly when email and password are non-empty; otherwise the alert text 'Please enter both email and password.' |
| `SignInScreen.ValidSignInIsAccepted` | app/signin.tsx:15-19 | the screen lets through exactly the credentials the mock sign-in accepts |
| `SignInScreen.WhitespaceCredentialsPass` | app/signin.tsx:15 | credentials made only of white space pass the sign-in check, though the prediction form would trim them to empty |
| `SignInScreen.HandleSignIn` | app/signin.tsx:13-20 | a press while isLoading does nothing; a failed check alerts and leaves the context alone; a passing one signs in with exactly (email, password), so the user becomes the mock user with that email and the list the mock history |
| `SignUpScreen.ValidateSignUp` | app/signup.tsx:15-23 | 'Please fill all fields.' exactly when a field is empty (checked first); 'Passwords do not match.' exactly when all are filled and the passwords differ; passes otherwise |
| `SignUpScreen.ValidSignUpIsAccepted` | app/signup.tsx:16-24 | the screen lets through exactly the registrations the mock sign-up accepts, and those yield a user with the given name and email |
| `SignUpScreen.CheckOrderDiffersFromMock` | app/signup.tsx:16-23 | with a field empty and differing passwords, the screen asks for all fields while the mock would report the mismatch |
| `SignUpScreen.HandleSignUp` | app/signup.tsx:15-25 | a press while isLoading does nothing; a failed check alerts its message and leaves the context alone; a passing one signs up with exactly (name, email, password, confirmPassword), so the user becomes that name and email and the list the mock history |

## Left out

- Timers and promise scheduling. The mock API's `setTimeout` delays and the 500 ms start-up
  delay are not modelled. Each operation is one atomic step taking its awaited values as
  parameters. The renders in the middle of an operation are not modelled either, for example
  the one after `setUser` and before the history arrives. Overlapping operations are not
  coordinated in the code and are not modelled.
- Because operations are atomic, isLoading is never true between two completed operations in
  the model. "True during the call" is stated only through `loadingWrites`, the ghost record of
  `setIsLoading` calls. The "press while isLoading does nothing" branches of the three handlers
  model the buttons' `disabled={isLoading}`.
- `Math.random()` and `Date.now()` are parameters of `MockPredictCrop`. The model does not
  connect `HandlePrediction`'s `outcome` to `MockPredictCrop`, so it also covers a backend that
  rejects. `new Date().toISOString().split('T')[0]` is the opaque `today` parameter.
- AuthContext.ScaledDraw: treats the binary64 product `Math.random() * n` as an exact real.
  The bound [0, n) still holds in binary64 for the only values the source passes (n = 3, 11
  and 14): the largest double below 1 times such an n rounds to a double below n.
- `parseFloat` of the form strings is the opaque `readings` parameter. The form accepts text
  that is not a number, and the model does not say what `parseFloat` makes of it.
- `alert`, `Alert.alert`, `router.replace` and `router.push` are foreign UI calls. The model
  returns them as values: `Notice`, `Press`, `AlertBox` and `Call`.
- What `fetchLocationAndWeather` itself does is not modelled: the context that should provide it
  is not part of this model (see Findings).
- The weather effect runs only when `user` changes, not on every render. `Render` states the
  rule for a render in which the effect runs.
- `useAuth` throwing outside a provider, the splash screen itself, all JSX and all styles are
  left out.
- `RootLayout.SegmentsAfter` assumes that after `router.replace('/(tabs)')` the router reports
  `["(tabs)"]`, and after `router.replace('/signin')` it reports `["signin"]`. The router is not
  part of this model.
- The context keeps no token, no persisted session and no weather state, and it has no
  handling of a 401 response or any real backend endpoint; none of these exist in the code.
- `signUp` fetches the history just like `signIn` (context/AuthContext.tsx:133-135), so a new
  account does not start with an empty list.
- The mock sign-in always reports the name 'Rajesh Kumar' (context/AuthContext.tsx:30).

## Findings

| source | as written | input that shows it | evidently intended | confidence | as-written member | corrected member |
|---|---|---|---|---|---|---|
| app/_layout.tsx:9-29 | the navigator takes `fetchLocationAndWeather` from the context and calls it whenever a user is present, but the context's value (context/AuthContext.tsx:73-84, 118-157) has no such member, so the call is a call of `undefined` and throws a TypeError | any successful sign-in or sign-up, which sets `user` and re-runs the effect | the context provides `fetchLocationAndWeather`, so that the effect fetches the weather once a user is present | not executed; read from the source text | `RootLayout.WeatherEffectThrowsAsWritten` | `RootLayout.WeatherEffectIntended` |

# Ello: reauthentication coordinator and dynamic settings filter

This project models two pieces of the Ello iOS client in Dafny and proves
properties of them.

**The reauthentication coordinator** (`Sources/Networking/ReAuthService.swift`).
When a request comes back unauthorized, the app calls `reAuthenticate`. At most
one reauthentication operation is in flight at a time:

- The first caller becomes the *driver*. It runs the grant cascade:
  1. It sends a refresh-token grant if refresh material exists, otherwise an
     anonymous-credentials grant.
  2. If that grant is rejected, it falls back to a password grant.
- Every caller that arrives while an operation is current becomes a *waiter*.
  A waiter depends on that operation. Once the operation finishes, the waiter
  replays the recorded `reauthResult`.

Every step runs on the main queue, so the model is a sequential state machine.
`Reauthentication.Step` says what each event does to the whole state and which
effects it has:

- `Call`: a caller runs the `nextTick` block. When the caller becomes the
  driver, the same event also runs the start of its operation, up to the first
  request. In the source that part runs later, when the queue starts the
  operation. Only joins and replays can run in between, and neither changes
  the token nor the current operation, so merging the two steps changes
  nothing that can be observed.
- `Respond`: the transport answers the request in flight.
- `Dequeue`: a waiting operation whose dependency has finished runs.

An effect is either a request to the transport or a call of a caller's
callback. The class `ReAuthService` keeps the same state in fields and updates
it in place. The shared `AuthToken` is a class whose fields `StoreToken`
assigns. The event handlers `ReAuthenticate`, `Deliver`, `OnTokenResponse`,
`ReAuthenticateUsername`, `OnPasswordResponse` and `RunWaiting` are each
proved equal to their pure transition and proved to preserve the invariant
`Inv`. The smaller steps are specified on their own terms:

- `ReAuthenticateToken` by the request it sends;
- `DriverDone` by the callback it makes and the fields it clears;
- `StoreToken` by `StoredCredential`.

`ReauthenticationProperties` proves the
following over single steps and over arbitrary admissible event sequences:

- the cascade's branches;
- every reachable state's invariant (in particular, the force-unwrap of a
  replayed failure is safe);
- single flight: at most two requests per started operation, and no request
  from a caller that joins;
- what the waiters are told.

**The dynamic settings screen**
(`Sources/Controllers/Settings/DynamicSettingsViewController.swift`).

- The success closure of `viewDidLoad` filters each category's settings down to
  those the current user has, writing the result back into the category. It
  then keeps the categories that still have settings.
- The table has three sections. Their row counts are the number of categories,
  1 and 1.
- `height` adds up the rows of every section and multiplies the total by 50.

Categories are objects: the filter overwrites their `settings` field. The
proofs therefore allow the same category object to appear more than once in
the loaded list. Every copy of a category left with settings is kept, as the
source's `reduce` appends each one (`DynamicSettings.NonEmptyCategoriesMultiplicity`).

Where this model follows the code rather than what the method names and
comments suggest:

- When the password fallback finds no username or password, the driver is told
  `failedToMapObjects`, but `reauthResult` is not written. Waiters therefore
  replay the previous result, and with no previous result they are told of
  *success* (`ReauthenticationProperties.MissingCredentialsReplayStaleResult`).
  They are not told of the credential failure.
- A waiting operation depends only on the operation that was current when it
  was created, and reads `reauthResult` only when it runs. If a later operation
  has started and finished before it runs, it replays the later operation's
  result. `ReauthenticationProperties.WaitersReplayOneResult` and
  `ReauthenticationProperties.DriverAndWaitersAgree` speak only of waiters
  that run right after their own operation ends.
- A non-2xx answer to the anonymous-credentials grant also falls back to the
  password grant. This is not limited to the refresh grant.
- The refresh grant is chosen when a refresh token exists, even an empty one,
  and the token is present and authenticated.
- `height` asks the table's data source for the section and row counts, so
  its value is 50 × (number of kept categories + 2).

Modelling choices:

- `AuthToken.isPresent` is taken to mean "an access token is stored and is
  non-empty".
- `ElloProvider.failedToMapObjects` is taken to call `failure` with a
  `FailedToMapObjects` error and no status code.
- `ElloProvider.generateElloError` is an opaque error built from the body and
  the status code.
- A response body is `None` when `JSON(data:)` throws on it. In that case
  the three token fields keep their values. The model assumes the initializer
  throws on malformed data; if it does not, the fields become `""` instead.
- Each of the three fields is the text that SwiftyJSON's `stringValue` gives:
  the string itself, or the text of a number or boolean. A field that is
  absent, null or not convertible to a string is `None` and is stored as `""`.
- `currentUser?.hasProperty(key)` is membership of `key` in the user's set of
  property keys.

## Model

| member | source | states |
|---|---|---|
| `Reauthentication.FirstEndpoint` | Sources/Networking/ReAuthService.swift:66-72 | The first request is the refresh grant carrying the stored refresh token exactly when a refresh token exists and the token is present and authenticated; otherwise it is the anonymous-credentials grant. |
| `Reauthentication.StoredCredential` | Sources/Networking/ReAuthService.swift:129-146 | After storing, the token is authenticated iff the endpoint is not anonymous, even when the body does not parse. A parse failure leaves the three token fields unchanged. A parsed body sets each field to its JSON string, or "" when absent. Username and password are untouched. |
| `Reauthentication.Replay` | Sources/Networking/ReAuthService.swift:31-37 | A waiter calls `success` iff there is no recorded result or the recorded result is a success; otherwise it calls `failure` with the recorded error and status code. |
| `Reauthentication.Arrive` | Sources/Networking/ReAuthService.swift:25-58 | A call while an operation is current sends nothing. It leaves the operation, its stage and the operation counter as they are, and appends a waiter on that operation to the queue. A call with none current starts a fresh operation, makes the caller its driver and sends the `FirstEndpoint` grant. Either way there is a current operation afterwards, and the result and token are untouched. |
| `Reauthentication.Finish` | Sources/Networking/ReAuthService.swift:44-52 | The driver is called back once and the current operation is cleared. The recorded result, the token and the waiters are unchanged. |
| `Reauthentication.UsernamePath` | Sources/Networking/ReAuthService.swift:100-127 | There is exactly one effect, and it is a request iff both username and password are stored. That request is `.Auth(username, password)` and the operation stays current waiting for it. Otherwise the driver fails with `failedToMapObjects` and the operation ends. The recorded result and the token are never changed. |
| `Reauthentication.TokenResponse` | Sources/Networking/ReAuthService.swift:74-97 | There is exactly one effect. It is a request iff the answer was a non-2xx status and both username and password are stored. A newly recorded result is a success iff the answer was 2xx, and the token changes only on a 2xx answer. |
| `Reauthentication.PasswordResponse` | Sources/Networking/ReAuthService.swift:104-121 | The operation ends with a well-formed recorded result, which is a success iff the answer was 2xx. The driver is told exactly what replaying that result tells a waiter. On success the token is stored; on a rejection or a transport failure it is left as it was. |
| `Reauthentication.RunWaiter` | Sources/Networking/ReAuthService.swift:30-39 | The waiter replays the recorded result and is removed from the queue. The other waiters remain, as a multiset, and nothing else in the state changes. |
| `Reauthentication.Step` | Sources/Networking/ReAuthService.swift:18-127 | Every event has at most one effect. A call has none iff an operation is current. Only transport answers change the recorded result or the token, and they never start an operation. Running a waiter leaves the current operation and its stage alone. |
| `Reauthentication.AuthToken.constructor` | Sources/Networking/ReAuthService.swift:63-65 | A token object holds the given stored values. |
| `Reauthentication.AuthToken.Snapshot` | Sources/Networking/ReAuthService.swift:129-146 | The token's fields as one credential value, the state `storeToken` updates. |
| `Reauthentication.ReAuthService.constructor` | Sources/Networking/ReAuthService.swift:13-14 | The coordinator starts with no current operation, no recorded result and no waiters, and satisfies the invariant. |
| `Reauthentication.ReAuthService.ReAuthenticate` | Sources/Networking/ReAuthService.swift:25-58 | A call either appends a waiter on the current operation, or starts a fresh operation, makes the caller its driver and sends the first grant. The new state and effects are those of `Step` on a `Call` event, and the invariant is kept. |
| `Reauthentication.ReAuthService.ReAuthenticateToken` | Sources/Networking/ReAuthService.swift:61-74 | The driver sends the grant `FirstEndpoint` chooses for the current token and waits for its answer. |
| `Reauthentication.ReAuthService.Deliver` | Sources/Networking/ReAuthService.swift:74-121 | An answer from the transport goes to the completion closure of whichever grant is in flight. The new state and effects are those of `Step` on a `Respond` event, and the invariant is kept. |
| `Reauthentication.ReAuthService.OnTokenResponse` | Sources/Networking/ReAuthService.swift:74-97 | The first grant's closure is equal to `TokenResponse`: 2xx stores the token and records success; another status falls back to the password path; a transport failure records and reports the error. |
| `Reauthentication.ReAuthService.ReAuthenticateUsername` | Sources/Networking/ReAuthService.swift:100-127 | The password path is equal to `UsernamePath`. It sends `.Auth(username, password)` when both are stored; otherwise it fails the driver with `failedToMapObjects` and records nothing. |
| `Reauthentication.ReAuthService.OnPasswordResponse` | Sources/Networking/ReAuthService.swift:104-121 | The password grant's closure is equal to `PasswordResponse` and keeps the invariant. |
| `Reauthentication.ReAuthService.DriverDone` | Sources/Networking/ReAuthService.swift:44-52 | The driver's closures call the caller back once and clear the current operation, on success and on failure alike. |
| `Reauthentication.ReAuthService.StoreToken` | Sources/Networking/ReAuthService.swift:129-146 | The token's fields afterwards are exactly `StoredCredential` of their previous values. |
| `Reauthentication.ReAuthService.RunWaiting` | Sources/Networking/ReAuthService.swift:30-39 | A waiting operation whose dependency has finished replays the recorded result and leaves the queue; nothing else changes. |
| `ReauthenticationProperties.StepPreservesInv` | Sources/Networking/ReAuthService.swift:27-55 | Every enabled event keeps the invariant. |
| `ReauthenticationProperties.RunPreservesInv` | Sources/Networking/ReAuthService.swift:36 | After any admissible sequence of events the invariant holds, so every recorded `false` result carries an error and the force-unwrap never fails. |
| `ReauthenticationProperties.ReadyWaiterIsEnabled` | Sources/Networking/ReAuthService.swift:30-40 | In a reachable state, a waiter whose dependency has finished can always run; it replays the result and only leaves the queue. |
| `ReauthenticationProperties.FirstRequestSucceeds` | Sources/Networking/ReAuthService.swift:80-86 | A 2xx answer to the first grant stores the token (authenticated iff it was the refresh grant) and records `(true, nil)`. It calls `success` exactly once, sends no second request and clears the current operation. |
| `ReauthenticationProperties.FallbackExactlyOnRejection` | Sources/Networking/ReAuthService.swift:87-103 | After the first grant, a second request is sent iff the answer had a non-2xx status, from either endpoint, and both username and password are stored. That request is `.Auth(username, password)`. |
| `ReauthenticationProperties.RejectionRecordsNothing` | Sources/Networking/ReAuthService.swift:87-92 | A rejected first grant changes neither `reauthResult` nor the token. |
| `ReauthenticationProperties.MissingCredentialsFail` | Sources/Networking/ReAuthService.swift:124-126 | Without a username or password, the fallback calls `failure` with `failedToMapObjects`, sends nothing, leaves `reauthResult` unchanged and clears the current operation. |
| `ReauthenticationProperties.TransportFailureDoesNotFallBack` | Sources/Networking/ReAuthService.swift:93-95 | A transport failure on the first grant records `(false, (error, nil))`, calls `failure` with no status code and sends no password grant. |
| `ReauthenticationProperties.PasswordAnswerIsTerminal` | Sources/Networking/ReAuthService.swift:107-120 | Every answer to the password grant ends the operation with no further request. The recorded result is a success iff the status is 2xx; then the token is stored and `success` is called. Otherwise the token is left as it was, the error carries the response's status code (or none for a transport failure), and `failure` is called with it. |
| `ReauthenticationProperties.DriverEndsOrContinues` | Sources/Networking/ReAuthService.swift:74-127 | Every answer either calls the driver back once and clears the current operation, or sends exactly one request and keeps the operation current. |
| `ReauthenticationProperties.JoinerWaits` | Sources/Networking/ReAuthService.swift:27-40 | A caller arriving while an operation is current sends nothing and only becomes a waiter on that operation, which cannot run yet. |
| `ReauthenticationProperties.RequestCountAppend` | Sources/Networking/ReAuthService.swift:74 | The requests of two effect sequences add up. |
| `ReauthenticationProperties.StepRequests` | Sources/Networking/ReAuthService.swift:18-127 | No event sends more requests than it starts or uses up: only a caller that finds no current operation adds request budget (two). |
| `ReauthenticationProperties.RequestsBounded` | Sources/Networking/ReAuthService.swift:18-127 | Over any admissible event sequence, the requests sent plus those still possible are at most two per started operation, plus what was already pending. |
| `ReauthenticationProperties.JoinersWaitInOrder` | Sources/Networking/ReAuthService.swift:27-40 | Any number of callers arriving while an operation is current start nothing, send nothing and are appended as waiters on it, in arrival order. |
| `ReauthenticationProperties.ConcurrentCallersShareOneOperation` | Sources/Networking/ReAuthService.swift:25-58 | When callers arrive with none current, the first becomes the driver and sends the single first grant; the rest wait on its operation, in order. |
| `ReauthenticationProperties.OneOperationAtMostTwoRequests` | Sources/Networking/ReAuthService.swift:61-127 | Whatever the transport answers, one operation started from an idle coordinator sends at most two requests. |
| `ReauthenticationProperties.WaitersReplayOneResult` | Sources/Networking/ReAuthService.swift:30-39 | Once their dependency has finished, the waiters run in order, each replays the same recorded result, and nothing else changes. |
| `ReauthenticationProperties.DriverAndWaitersAgree` | Sources/Networking/ReAuthService.swift:44-52 | When the driver's operation ends in any way but `failedToMapObjects`, every waiter replaying the recorded result is told what the driver was told. |
| `ReauthenticationProperties.MissingCredentialsReplayStaleResult` | Sources/Networking/ReAuthService.swift:124-126 | The exception: after `failedToMapObjects`, a waiter replays the earlier result, and is told of success when there was none or it was a success. |
| `DynamicSettings.OwnedSettings` | Sources/Controllers/Settings/DynamicSettingsViewController.swift:46-51 | The inner `reduce`: the settings whose key the user has, in order. It is never longer than the input; its other properties are the lemmas below. |
| `DynamicSettings.OwnedSettingsMultiplicity` | Sources/Controllers/Settings/DynamicSettingsViewController.swift:46-51 | Each setting the user has occurs in the result exactly as often as in the input, and every other setting does not occur at all. |
| `DynamicSettings.OwnedSettingsSound` | Sources/Controllers/Settings/DynamicSettingsViewController.swift:46-51 | Every kept setting comes from the category and the current user has its key. |
| `DynamicSettings.OwnedSettingsComplete` | Sources/Controllers/Settings/DynamicSettingsViewController.swift:46-51 | Every setting whose key the current user has is kept. |
| `DynamicSettings.OwnedSettingsOrdered` | Sources/Controllers/Settings/DynamicSettingsViewController.swift:46-51 | The kept settings are a subsequence of the original: their relative order is preserved. |
| `DynamicSettings.NoUserOwnsNothing` | Sources/Controllers/Settings/DynamicSettingsViewController.swift:47 | With no current user, every setting is dropped. |
| `DynamicSettings.OwnedSettingsIdempotent` | Sources/Controllers/Settings/DynamicSettingsViewController.swift:46-51 | Filtering an already filtered list changes nothing, so a category listed twice ends with the same settings as one listed once. |
| `DynamicSettings.NonEmptyCategories` | Sources/Controllers/Settings/DynamicSettingsViewController.swift:52-55 | The categories whose settings are non-empty, in order; never more than the input. |
| `DynamicSettings.NonEmptyCategoriesKeepExactly` | Sources/Controllers/Settings/DynamicSettingsViewController.swift:52-55 | A category is kept iff its (filtered) settings are non-empty. |
| `DynamicSettings.NonEmptyCategoriesMultiplicity` | Sources/Controllers/Settings/DynamicSettingsViewController.swift:52-55 | A category with settings is kept as many times as it is listed, duplicates included; any other category is not kept at all. |
| `DynamicSettings.NonEmptyCategoriesOrdered` | Sources/Controllers/Settings/DynamicSettingsViewController.swift:45-56 | The kept categories are a subsequence of the loaded ones: their order is preserved. |
| `DynamicSettings.DynamicSettingCategory.constructor` | Sources/Controllers/Settings/DynamicSettingsViewController.swift:44 | A loaded category holds its label (the field `text`, since `label` is a Dafny keyword) and its settings. |
| `DynamicSettings.FilterSettings` | Sources/Controllers/Settings/DynamicSettingsViewController.swift:46-51 | The category's `settings` field is overwritten with its owned settings, which are also returned. |
| `DynamicSettings.FilterNext` | Sources/Controllers/Settings/DynamicSettingsViewController.swift:45-56 | One turn of the outer `reduce` filters the next category and keeps it iff its settings remain non-empty, extending the loop invariant by one category. |
| `DynamicSettings.KeepOwnedCategories` | Sources/Controllers/Settings/DynamicSettingsViewController.swift:45-56 | Every category's settings become the owned settings of its original list, including categories then dropped. The result is the categories left with settings, in order. |
| `DynamicSettings.SectionFromRaw` | Sources/Controllers/Settings/DynamicSettingsViewController.swift:11-16 | A raw value names a section iff it is 0 to 3, and the section's raw value is that number. |
| `DynamicSettings.SectionCount` | Sources/Controllers/Settings/DynamicSettingsViewController.swift:17-19 | The section count is 3, the raw value of `Unknown`. |
| `DynamicSettings.DynamicSettingsViewController.constructor` | Sources/Controllers/Settings/DynamicSettingsViewController.swift:23-24 | A new controller has the given user and no categories. |
| `DynamicSettings.DynamicSettingsViewController.NumberOfSections` | Sources/Controllers/Settings/DynamicSettingsViewController.swift:71-73 | The table has 3 sections. |
| `DynamicSettings.DynamicSettingsViewController.NumberOfRowsInSection` | Sources/Controllers/Settings/DynamicSettingsViewController.swift:75-82 | Section 0 has one row per kept category. Sections 1 and 2 have one row each. Any other section number maps to `Unknown` and has none. |
| `DynamicSettings.DynamicSettingsViewController.Height` | Sources/Controllers/Settings/DynamicSettingsViewController.swift:27-33 | The height is 50 times the sum of the row counts of all sections, which is 50 × (number of kept categories + 2). |
| `DynamicSettings.DynamicSettingsViewController.FilterCategories` | Sources/Controllers/Settings/DynamicSettingsViewController.swift:44-56 | After loading, every category's settings are those the current user has, and `dynamicCategories` is the loaded categories left with settings, in order. The current user is unchanged. |

## Left out

- The `isTesting` bypass of `reAuthenticate` (ReAuthService.swift lines 19-22): it exists only for the test suite.
- Logging.
- The network layer (`ElloProvider`, Moya), which becomes `Response` values the transport delivers.
- The bodies of `generateElloError` and `failedToMapObjects`, which are not part of this model; their errors are opaque values.
- `NSOperationQueue`, `AsyncOperation` and `nextTick` are replaced by a sequential event order. The main queue serialises all work, so no interleaving is lost. The order in which the queue runs ready waiters is not fixed: a `Dequeue` event may pick any waiter whose dependency has finished.
- The `done()` completion of each operation, which only tells the queue the operation ended.
- The coordinator's state is two file-level variables (`currentReauthOperation`, `reauthResult`) that every `ReAuthService` instance shares. The model stands for a single coordinator whose fields are that shared state; it does not model several instances.
- The keychain persistence behind `AuthToken`, which is a plain object here.
- SwiftyJSON parsing is replaced by an optional record of three optional strings.
- In `DynamicSettingsViewController`:
  - loading the categories through `StreamService` (the filter takes the loaded list as input);
  - hiding the HUD, `reloadData` and the parent controller;
  - cell configuration, row selection and segues.
- `DynamicSettings.DynamicSettingsViewController.Height`: the `CGFloat` height is an integer product.
- `Sources/Views/ElloButton.swift`: it is only visual styling.

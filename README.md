# AndreaAI usage gating and chat turn, in Dafny

This project models the core of the AndreaAI web chat. It has two parts.

The first is the usage-gating state machine of `AuthSystem`:
- a guest gets three free conversations, counted in the browser's local storage;
- a signed-in user's count lives in a document of the remote `users` collection;
- a premium flag lifts the limit.

The model covers:
- the in-memory counter;
- the entitlement test `canChat`;
- the increment, with its guest, signed-in and backup paths;
- loading the guest count and the user's document;
- the auth-state callback;
- registration, with migration of the guest count;
- sign-in;
- the premium upgrade;
- the e-mail pattern, e-mail shortening and error-message table;
- the checks the two forms make before calling the provider.

The second part is the chat-turn controller `AndreaApp`:
- the transcript `messages` and the typing flag;
- `sendMessage`, which refuses an empty input, refuses a turn with an upsell reply when the quota is used up, or records the message, counts the turn and records the reply;
- `clearChat`;
- the plain-text export;
- the keyword table that picks a reply;
- the wrapper that `integrateAuthWithApp` puts around `sendMessage`.

Modules:
- `Wrappers` holds `Option`.
- `JsHost` stands in for the JavaScript host functions the core relies on. These are `\s`, `trim`, `toLowerCase`, `includes`, `parseInt` and `String(number)`. It also models NaN: a count is `Option<int>`, and `None` is NaN.
- `AuthHelpers` holds the pure helpers and the form checks.
- `Auth` holds the state machine. Each operation is first a pure function over a snapshot `AuthState`: the object's fields plus local storage and the remote collection. Each method of the class `AuthSystem` is then proved to produce exactly that snapshot. The lemmas state the properties of the functions.
- `Chat` holds `AndreaApp`.
- `Integration` holds the wrapper.

The outside world enters as parameters:
- Each call to the remote store is a `Step` that succeeds or fails with a code.
- The identity provider's answer is a `SignIn`.
- Clock readings are `Time` values.
- The host's time formatting is a function parameter of the export.

An `update` of a document that does not exist fails with `not-found`, as the remote store does. Its relative increment adds to a numeric field, or writes the delta when the field is not a number.

The model follows the code, including behaviour a reader might not expect:
- An unparseable stored guest count loads as NaN, not 0, and a NaN count refuses a guest (`Auth.UnparseableGuestCountRefuses`).
- Guests can buy premium. `upgradeToPremium` (repository/auth-system.js:698-725) sets the flag whether or not anyone is signed in, although the wrapper's refusal text asks the guest to register (`Auth.GuestUpgrade`).
- Without the identity provider, the auth-state callback is never registered. The stored guest count is therefore never loaded, every page starts again from 0, and the first turn overwrites the stored count (`Auth.UnconfiguredPageIgnoresStoredCount`). The quota of 3 that the refusal texts announce is then not kept across page loads.
- With the wrapper installed, an allowed turn counts twice. The wrapper also checks the quota before the empty-input check, so an empty send is charged. A guest on the last free turn is charged and then refused, so a fresh guest gets one reply, not three (`Integration.WrappedGuestGetsOneReply`).
- On sign-in with no user document, the document is created but the in-memory count is not reset.
- `login` reports failure when its `lastLogin` update fails, even though the sign-in itself succeeded. This includes a user who has no document.
- The error table is the code's ten codes, including `auth/operation-not-allowed` and `auth/network-request-failed`.

## Model

| member | source | states |
|---|---|---|
| `JsHost.NumberRoundTrip` | repository/auth-system.js:126 | `parseInt` of the text `localStorage.setItem` stores for a count gives that count back, NaN included |
| `JsHost.TrimEmptyIff` | repository/andrea-app.js:91-93 | an input trims to nothing exactly when every character is whitespace |
| `AuthHelpers.ValidateEmailIsShape` | repository/auth-system.js:746-749 | the e-mail pattern accepts exactly L@R: L non-empty without whitespace or '@'; R without whitespace or '@', with a '.' that is neither its first nor its last character |
| `AuthHelpers.ValidateEmail` | repository/auth-system.js:746-749 | the pattern test as an automaton; it has no contract of its own, and `ValidateEmailIsShape` states what it accepts |
| `AuthHelpers.NoAtRejected` | repository/auth-system.js:746-749 | a string without '@' is never a valid e-mail |
| `AuthHelpers.SampleEmailAccepted` | repository/auth-system.js:746-749 | "a@b.com" is a valid e-mail |
| `AuthHelpers.TruncateEmail` | repository/auth-system.js:751-754 | an e-mail that fits is returned unchanged; a longer one becomes its first maxLength-3 characters and "...", of length maxLength (3 when maxLength is below 3) |
| `AuthHelpers.TruncateEmailFits` | repository/auth-system.js:751-754 | with the default width 20, the result never exceeds 20 characters, and a longer e-mail shows its first 17 characters and "..." |
| `AuthHelpers.ErrorMessage` | repository/auth-system.js:728-743 | a code in the table gets its message; every other code, and only those, gets the generic message |
| `AuthHelpers.LoginFormCheck` | repository/auth-system.js:502-520 | the sign-in form calls `login` exactly when the trimmed e-mail and the password are non-empty and the e-mail is valid, and passes the trimmed e-mail |
| `AuthHelpers.RegisterFormCheck` | repository/auth-system.js:523-552 | the registration form calls `register` exactly when the trimmed e-mail is valid, the password equals its confirmation and has at least 6 characters; a filled, valid form with differing passwords reports the mismatch |
| `Auth.StoredCount` | repository/auth-system.js:123-132 | an absent or empty guest key loads as 0, anything else through `parseInt` |
| `Auth.ReadCount` | repository/auth-system.js:102-104 | a document's numeric count is read as is; a missing or NaN count reads as 0 |
| `Auth.ReadPremium` | repository/auth-system.js:103 | `data.premium || false`; no contract of its own: `NewUserDoc`, `AccountDoc`, `UpgradeStep` and `UpgradePersists` state what it reads |
| `Auth.NewUserDoc` | repository/auth-system.js:107-114 | a new user document starts with count 0 and without premium |
| `Auth.CountedDoc` | repository/auth-system.js:232-235 | the increment's document update: the count rises by one (or becomes 1 when it is missing or not a number), `lastActivity` is stamped, and every other field, the premium flag included, is kept |
| `Auth.LoggedInDoc` | repository/auth-system.js:197-199 | the login update: only `lastLogin` is added or stamped; every other field is kept, so the count and the premium flag read the same |
| `Auth.PremiumDoc` | repository/auth-system.js:715-719 | the upgrade update: `premium`, `premiumSince` and the plan are written; every other field is kept, so the count reads the same and the premium flag reads true |
| `Auth.IncrementField` | repository/auth-system.js:231-234 | a relative increment adds to a numeric field and leaves every other field and no new field but the target |
| `Auth.Entitled` | repository/auth-system.js:255-261 | a signed-in or premium user may always chat; a guest without premium may exactly when the count is a number below 3 |
| `Auth.IncrementStep` | repository/auth-system.js:226-252 | the count rises by one on every path; a guest's new count goes under the guest key; a signed-in user's document becomes its `CountedDoc` and every other user's document is kept; when the update fails the new count goes under the backup key and no document changes; the signed-in path never touches the guest key; the limit modal is raised exactly on the guest path at a count of 3 or more |
| `Auth.LoadLocalStep` | repository/auth-system.js:123-132 | only the count changes, to the stored guest count |
| `Auth.LoadUserDataStep` | repository/auth-system.js:94-120 | without initialisation or a signed-in user nothing changes; an existing document sets the count and premium flag; a missing one is created and the in-memory state kept; a failing read or create falls back to the guest count |
| `Auth.AuthChangedStep` | repository/auth-system.js:74-90 | signing in sets the user and loads their data; signing out clears the user, reloads the guest count and keeps the premium flag |
| `Auth.RegisterStep` | repository/auth-system.js:135-184 | fails with a fixed message when not initialised, on an invalid e-mail, or on a password under 6 characters; succeeds only when the provider accepts, and then the collection is the old one with the new user's `AccountDoc`, the guest key is removed when it held a count, and the guest count reads 0; a provider rejection or a failed document write returns `ErrorMessage` of its code and changes nothing; a failed migration returns `ErrorMessage` of its code and leaves the new document with count 0 and the guest key; the in-memory user, count and premium flag never change |
| `Auth.CreateAccount` | repository/auth-system.js:155-173 | after the provider accepts: it succeeds exactly when the document is written and, if a guest count is stored, its migration goes through; success leaves the collection with the user's `AccountDoc` and removes the guest key; a failed write returns `ErrorMessage` of its code and changes nothing; a failed migration returns `ErrorMessage` of its code and leaves exactly the new document with count 0, keeping the guest key |
| `Auth.AccountDoc` | repository/auth-system.js:155-171 | the new user's document after migration reads as the stored guest count (0 when nothing, or no number, was stored) and is not premium |
| `Auth.LoginStep` | repository/auth-system.js:187-210 | succeeds exactly when initialised, the provider accepts, and the `lastLogin` update goes through; on success that user's document becomes its `LoggedInDoc` and every other document is kept; on failure nothing changes, and the result is the not-initialised message, `ErrorMessage` of the provider's code, or `ErrorMessage` of the update's code (not-found when the document is missing) |
| `Auth.UpgradeStep` | repository/auth-system.js:698-725 | the premium flag is set in every case; when a signed-in user's update goes through, their document becomes its `PremiumDoc` and every other document is kept; otherwise the collection is unchanged |
| `Auth.Initial` | repository/auth-system.js:27-35 | a new object is a guest with count 0 and no premium |
| `Auth.IncrementRaisesByOne` | repository/auth-system.js:227 | from a count n, the increment gives n+1 on every path and keeps the signed-in user and the premium flag |
| `Auth.GuestIncrementReloads` | repository/auth-system.js:241-243 | after a guest's increment, loading the guest key gives the new count back, NaN included |
| `Auth.BackupHoldsNewCount` | repository/auth-system.js:236-239 | when the remote update fails, the backup key parses to the new count |
| `Auth.LoadLocalIdempotent` | repository/auth-system.js:123-132 | loading the guest count twice is the same as once |
| `Auth.FreshGuestQuota` | repository/auth-system.js:241-248 | a fresh guest counts 1, 2, 3, is allowed three turns, sees the limit modal on the third and is refused a fourth |
| `Auth.RefusedGuestStaysRefused` | repository/auth-system.js:255-261 | once a guest without premium is refused, further increments keep them refused |
| `Auth.RegisterChecksPrecedeProvider` | repository/auth-system.js:136-152 | when not initialised, or on an invalid e-mail or short password, `register` fails, changes nothing and answers the same whatever the provider and store would have said |
| `Auth.RegisterAddsStoredCount` | repository/auth-system.js:166-173 | registering with a non-empty stored guest count succeeds with the new user, adds the stored count to the new document's zero and removes the guest key |
| `Auth.RegisterMigratesGuestCount` | repository/auth-system.js:166-173 | a guest with n stored turns who registers gets a document with count n; the guest key is removed; after the sign-in callback the count is n and chatting is allowed |
| `Auth.StoredNumeralReads` | repository/auth-system.js:124-126 | the text of n under the guest key is a stored count and loads as n |
| `Auth.SignInReadsDocument` | repository/auth-system.js:96-103 | signing in a user whose document exists loads that document's count, and the user may chat |
| `Auth.RegisterWithoutGuestCount` | repository/auth-system.js:155-173 | without a stored guest count, registration gives a document with count 0 and leaves local storage as it was |
| `Auth.UpgradePersists` | repository/auth-system.js:714-720 | after a signed-in upgrade, signing that user in again restores premium from the document, even from a state whose flag is false |
| `Auth.PremiumSurvivesSignOut` | repository/auth-system.js:83-85 | signing out keeps the premium flag, so the former user keeps chatting as a guest |
| `Auth.GuestUpgrade` | repository/auth-system.js:704 | a guest's upgrade sets premium without writing any document and lifts the quota |
| `Auth.UnparseableGuestCountRefuses` | repository/auth-system.js:126 | a stored guest count "abc" loads as NaN and refuses a guest without premium |
| `Auth.UnconfiguredPageIgnoresStoredCount` | repository/auth-system.js:72 | without the provider, a new page allows chatting whatever is stored, and its first turn stores a count of 1 |
| `Auth.AuthSystem.constructor` | repository/auth-system.js:27-35 | the fields start as `Initial`: a guest with count 0, no premium and the given stores |
| `Auth.AuthSystem.CanChat` | repository/auth-system.js:254-260 | `canChat()` is `Entitled` of the object's state; no contract of its own: `Entitled` states the rule |
| `Auth.AuthSystem.LoadLocalConversationCount` | repository/auth-system.js:123-132 | performs `LoadLocalStep` on the fields |
| `Auth.AuthSystem.IncrementConversationCount` | repository/auth-system.js:226-252 | performs `IncrementStep` on the fields and returns whether the limit modal is raised |
| `Auth.AuthSystem.LoadUserData` | repository/auth-system.js:94-120 | performs `LoadUserDataStep` on the fields |
| `Auth.AuthSystem.OnAuthStateChanged` | repository/auth-system.js:74-90 | performs `AuthChangedStep` on the fields; it exists only when the provider was initialised |
| `Auth.AuthSystem.Register` | repository/auth-system.js:135-184 | performs `RegisterStep` on the fields and returns its result |
| `Auth.AuthSystem.CreateAccountOnFields` | repository/auth-system.js:155-173 | writes the document, then migrates the stored guest count into it, as `CreateAccount` describes |
| `Auth.AuthSystem.Login` | repository/auth-system.js:187-210 | performs `LoginStep` on the fields and returns its result |
| `Auth.AuthSystem.UpgradeToPremium` | repository/auth-system.js:698-725 | performs `UpgradeStep` on the fields |
| `Auth.AuthSystem.SubmitRegister` | repository/auth-system.js:523-552 | a form the checks turn away shows their message and changes nothing; otherwise `register` runs on the trimmed e-mail |
| `Auth.AuthSystem.SubmitLogin` | repository/auth-system.js:502-520 | a form the checks turn away shows their message and changes nothing; otherwise `login` runs |
| `Chat.DefaultReply` | repository/andrea-app.js:206 | the default reply quotes the message verbatim after its fixed opening |
| `Chat.FirstMatch` | repository/andrea-app.js:198-204 | the keyword-table lookup; no contract of its own: `FirstMatchIsFirst` states that it finds the first key that occurs |
| `Chat.ResponseFor` | repository/andrea-app.js:188-207 | `generateResponse` as a function; no contract of its own: `ResponseForIsFirstMatch` and `GenerateResponse` state it |
| `Chat.FirstMatchIsFirst` | repository/andrea-app.js:198-204 | the table lookup answers with entry i exactly when key i occurs and no earlier key does, and answers nothing exactly when no key occurs |
| `Chat.ResponseForIsFirstMatch` | repository/andrea-app.js:188-207 | the reply is that of the first key, in table order, found in the lower-cased message, or else the default reply |
| `Chat.GreetingIgnoresCase` | repository/andrea-app.js:191 | "HOLA" gets the greeting |
| `Chat.Entries` | repository/andrea-app.js:237-240 | one `[time] Usuario/AndreaAI: content` entry per message, in order |
| `Chat.Entry` | repository/andrea-app.js:237-240 | one export line `[time] Usuario|AndreaAI: content`; no contract of its own: `ExportHoldsEveryEntry` states that each occurs in the export |
| `Chat.Join` | repository/andrea-app.js:241 | `join`; no contract of its own: `JoinSnoc` and `JoinHoldsParts` state it |
| `Chat.ExportText` | repository/andrea-app.js:237-241 | the file's text; no contract of its own: `ExportAppend` and `ExportHoldsEveryEntry` state it |
| `Chat.JoinSnoc` | repository/andrea-app.js:241 | joining one more part appends the separator and that part |
| `Chat.JoinHoldsParts` | repository/andrea-app.js:241 | each part occurs in the joined text right after the parts before it and their separators |
| `Chat.ExportAppend` | repository/andrea-app.js:237-241 | exporting one more message appends a blank line and its entry |
| `Chat.ExportHoldsEveryEntry` | repository/andrea-app.js:237-241 | every message's entry occurs in the export |
| `Chat.AndreaApp.constructor` | repository/andrea-app.js:4-10 | a new app has no messages and is not typing |
| `Chat.AndreaApp.AppendMessage` | repository/andrea-app.js:134-153 | exactly one record is added at the end with earlier ones unchanged; without a chat container, nothing is recorded |
| `Chat.AndreaApp.ShowTypingIndicator` | repository/andrea-app.js:155-178 | sets the typing flag when the chat container exists |
| `Chat.AndreaApp.HideTypingIndicator` | repository/andrea-app.js:180-186 | clears the typing flag |
| `Chat.AndreaApp.ClearChat` | repository/andrea-app.js:209-229 | empties the transcript when the chat container exists, and changes nothing otherwise |
| `Chat.AndreaApp.ExportChat` | repository/andrea-app.js:231-254 | nothing to export exactly when there are no messages; otherwise the export text, which holds every message's entry |
| `Chat.AndreaApp.GenerateResponse` | repository/andrea-app.js:188-207 | the table walk returns `ResponseFor` of the message |
| `Chat.AndreaApp.SendMessage` | repository/andrea-app.js:89-132 | an input that trims to nothing changes nothing; a refused turn appends one upsell reply and keeps the input and the count; an allowed turn clears the input, records the user message, counts the turn once, then records the reply, in that order |
| `Chat.AndreaApp.RunTurn` | repository/andrea-app.js:113-131 | the allowed turn's effects and their order |
| `Integration.IntegrateAuthWithApp` | repository/auth-system.js:761-794 | the send handler is wrapped exactly when both the app and the auth object exist; nothing else changes |
| `Integration.Send` | repository/andrea-app.js:34-38 | the send button and Enter key run the wrapper once it is installed and the app's own handler before; for each of the wrapper's four paths (refused, charged with an empty input, charged then refused with the app's upsell, charged then answered) and each of the handler's three (empty, refused, answered) it gives the messages, input and auth state |
| `Integration.SendAfterIntegration` | repository/auth-system.js:761-790 | after integration on an app with an auth object, an allowed non-empty turn is counted twice (`IncrementStep` of `IncrementStep`) and records the message and its reply |
| `Integration.WrappedSendMessage` | repository/auth-system.js:766-790 | a refused quota appends the wrapper's upsell whatever the input; otherwise the turn is counted first, then the original handler runs on the new count: an empty input is charged with nothing recorded and the typing flag kept, a newly refused guest gets the app's upsell with input and typing flag kept, and an allowed turn is counted a second time and answered |
| `Integration.ChargeThenSend` | repository/auth-system.js:785-789 | the wrapper past its check: one count, then the original handler; the empty and refused paths keep the input and the typing flag |
| `Integration.WrappedTurnCountsTwice` | repository/auth-system.js:785-789 | through the wrapper, an allowed turn raises the count by two |
| `Integration.LastFreeTurnChargedThenRefused` | repository/auth-system.js:768-789 | a guest at count 2 passes the wrapper's check, is charged to 3 and is then refused |
| `Integration.WrappedGuestGetsOneReply` | repository/auth-system.js:768-789 | through the wrapper, a fresh guest's first turn counts to 2 and the second is refused after being charged |

## Left out

- Firebase initialisation and configuration are not modelled. The model treats the provider as either available or not; this is the `firebaseReady` constructor parameter.
- Remote calls are not modelled as SDK calls. Each call is an outcome parameter: a `Step` for the store, a `SignIn` for the provider.
- Server timestamps are a single `ServerTime` value.
- DOM construction, modals, `updateUI`, notifications, premium badges and the CSS are presentation, so they are left out. So are navigation, the mind-map panel and the one-second polling of the input's enabled state.
- Timers are collapsed: the 1.5-second reply delay and the 2-second upgrade delay. A turn and an upgrade each run as one call. Inside a turn, the ghost event log records the typing indicator going up and down. A second send during the reply delay is not modelled.
- Concurrency is not modelled. This covers races between the auth-state callback and the awaits in `register` and `login`, and turns from several tabs.
- `logout` is only the provider's sign-out. Its effect on the state is the callback with no user (`Auth.AuthChangedStep`).
- Local storage never throws in the model. The `catch` in `loadLocalConversationCount`, which resets the count to 0, is not reached.
- `Auth.ReadCount`: a document field that is not a number reads as 0, and `ReadPremium` reads only `true` as premium. JavaScript's `||` would keep any truthy non-number value, but this code writes only numbers and booleans to these fields.
- Counts are unbounded integers. Precision loss above 2^53 and the exponent form of `String` for very large numbers are left out.
- `JsHost.ToLower` lower-cases only ASCII and Latin-1 letters, which covers the keyword table. Full Unicode case mapping is left out.
- String lengths count code points. JavaScript counts UTF-16 units, which differs only for characters outside the Basic Multilingual Plane. This affects the password-length checks and `truncateEmail`.
- `AuthHelpers.ErrorMessage` does not model codes that name `Object.prototype` members (such as "toString"). For those, the JavaScript lookup returns a function rather than the generic message.
- `Chat.AndreaApp.SendMessage` assumes the input field exists. Without it, the source throws on `input.value`.
- The export's Blob, download link, file name and success notification are left out. `Date` and `toLocaleTimeString` are parameters: the time of each message, and the formatting function.
- `integrateAuthWithApp` runs once at page load, so the model keeps a flag, `wrapped`, on which `Integration.Send` picks the handler. A second call would wrap the handler again, and that is not modelled.
- `Integration.Send`: its contract gives each of the seven paths' messages, input and auth state; the event order and the typing flag are stated by `WrappedSendMessage` and `SendMessage`, which it runs.

# Tenant app: session, routing and screen rules

This project models the decision logic of a React Native tenant app and proves properties of that model. The modelled parts are:

- **The session controller** (`SessionProvider`). It keeps the signed-in user's record in memory and in one storage key, `"tenantapp_session"`. It loads that key once at start-up, and it saves or clears the record.
- **The app shell** (`AppContent`). It holds the login redirect that picks a page from the session, the render gate, and the menu, notification and retry handlers.
- **The profile loader** (`UserProvider`).
- **The request helpers** of `apiConfig.js`: the query-string loop, the header merge and the request bodies.
- **Four screens**: bill history, service tickets, payment history and the owner's building list. For each, the model covers the load state machine, the field fallbacks, the filters and the form validation.

JavaScript values are one datatype, `JsVal`. The coercions the code relies on are written out in module `JsValues`:

- truthiness, `a || b` and destructuring defaults;
- `v?.k`;
- `String(v)` and `Number(v)`.

`JSON.stringify` and `JSON.parse` are a concrete codec (module `Json`), and `Parse(Serialize(j)) == Some(j)` is proved for it. The lossy step is modelled separately (`Stringify`, `Reloaded`): `undefined` fields vanish and NaN becomes `null`.

Storage calls and HTTP requests are not performed. Their outcome is a parameter of the method that makes them:

- a `bool` for a storage call that succeeds or fails;
- an `Outcome` for a request: a reply `{ok, status, data}`, or a thrown error.

Every state-changing handler is a method on a class whose fields are the component's state. Each method's `ensures` gives the whole new state in terms of specification functions. Lemmas about those functions state what the code promises.

Some behaviours of the code are worth stating outright:

- The redirect reads no client type and keeps no building-selection state. It never reads `clientTypeId` (`App.RedirectIgnoresClientType`).
- `"Rejected"` is matched case-sensitively, and `status` is compared with the number 1 strictly (`App.RedirectIsStrict`).
- A non-numeric `ClientId` is saved: the record holds NaN ids (`Session.NonNumericClientIdSaved`), and the ids come back as `null` after a restart (`Session.NaNClientIdReloadsAsNull`).
- `status` is stored as given, with no coercion.
- `SubmissionStatus` is never stored. A saved session therefore routes only to the dashboard or the pending screen (`App.SavedSessionRoutes`).

## Model

| member | source | states |
|---|---|---|
| JsValues.OrTruthy | src/screens/PaymentHistory.jsx:76-79 | `a \|\| b` is truthy iff either operand is; it is the first operand when that is truthy, and the second one otherwise |
| JsValues.Default | src/apiConfig.js:107-108 | a destructuring default replaces only `undefined`; every other value, `null` included, is kept |
| JsValues.LookupSetProp | src/apiConfig.js:53 | after setting `k` in an object, `k` reads the new value and every other key reads as before; the key set grows by `k` alone |
| JsValues.ToNumber | src/context/SessionContext.js:47-49 | `Number(v)` is always a number or NaN |
| JsValues.NumberOfIntString | src/context/SessionContext.js:47-49 | `Number(String(n))` is `n` for every integer `n` |
| JsValues.WordIsNaN | src/context/SessionContext.js:47 | `Number("abc")` is NaN |
| Json.Stringify | src/context/SessionContext.js:71 | `JSON.stringify` writes nothing exactly for `undefined` |
| Json.ReloadedPrimitive | src/context/SessionContext.js:71 | a primitive other than NaN survives a stringify/parse trip; NaN comes back as `null`; truthiness is kept |
| Json.ReloadedLookup | src/context/SessionContext.js:69-72 | for an object with distinct keys, reading a key after the trip gives that property's own trip (a dropped `undefined` field reads `undefined`) |
| Json.SerializeRoundTrip | src/context/SessionContext.js:18-20 | parsing the written text of any JSON document gives the document back |
| Json.StrictSyntax | src/context/SessionContext.js:20 | `012` and `-012` are SyntaxErrors while `0` and `-10` parse; a raw line break in a string is a SyntaxError; a control character is written as an escape (`\n`, `\u0001`) that parses back to itself |
| Json.GarbageDoesNotParse | src/context/SessionContext.js:20 | a word such as `x`, and the empty text, are parse errors, so a load keeps the prior session |
| Session.FormatSession | src/context/SessionContext.js:40-62 | the saved record is an object with twelve properties |
| Session.FormatSessionRecord | src/context/SessionContext.js:40-62 | the record has exactly the keys name…status in order, all distinct, is truthy, and each key reads its backend field (the three ids through `Number`) |
| Session.FormatSessionFields | src/context/SessionContext.js:40-62 | field by field: `name`←`FirstName` … `status`←`status`; `clientId` and `userId` are both `Number(ClientId)` and equal, a number or NaN |
| Session.RecordOmitsBackendStatus | src/context/SessionContext.js:40-62 | the record never holds `Status` or `SubmissionStatus` |
| Session.NonNumericClientIdSaved | src/context/SessionContext.js:47-72 | a `ClientId` of `"abc"` gives NaN `clientId` and `userId`, and a successful save still stores the record |
| Session.RecordText | src/context/SessionContext.js:69-72 | the stored text is never empty, so a later load reads it |
| Session.SessionStore.constructor | src/context/SessionContext.js:8-10 | no session, not ready, storage as found on the device |
| Session.SessionStore.LoadSession | src/context/SessionContext.js:15-27 | ends ready whatever happens; leaves storage alone; the session becomes the parsed stored value only when the read succeeds and the text is non-empty and parses |
| Session.SessionStore.ClearSession | src/context/SessionContext.js:81-88 | the session is `null` even if the removal fails; the key is removed exactly when the removal succeeds |
| Session.SessionStore.SaveSession | src/context/SessionContext.js:35-76 | a falsy payload clears; otherwise memory holds the formatted record whether or not the write succeeds, and storage holds its text only on success |
| Session.ClearOnlyTheKey | src/context/SessionContext.js:81-88 | a successful clear leaves no stored session; no other key changes; clearing again changes nothing |
| Session.SaveOnlyTheKey | src/context/SessionContext.js:35-75 | saving a falsy value is a clear; no save touches a key other than `"tenantapp_session"`; a failed write of a record leaves storage as it was |
| Session.SaveThenLoad | src/context/SessionContext.js:18-72 | after a successful save, a fresh load yields the record's JSON trip, an object, where every key reads the trip of the saved field |
| Session.ReloadedStatus | src/context/SessionContext.js:61-72 | a primitive, non-NaN `status` is read back unchanged after save and reload |
| Session.NaNClientIdReloadsAsNull | src/context/SessionContext.js:47-72 | a NaN `clientId` comes back as `null` after save and reload |
| Session.LoadFailuresKeepSession | src/context/SessionContext.js:15-27 | no key, an empty value, a failed read or unparsable text leaves the session as it was |
| Session.SyntaxErrorsKeepSession | src/context/SessionContext.js:18-24 | stored text with a leading-zero number or a raw line break in a string is a SyntaxError, so the session stays as it was |
| App.Redirect | App.jsx:46-56 | without a session the page is unchanged |
| App.RedirectOutcomes | App.jsx:46-56 | with a session: dashboard iff `Status` or `status` is the number 1; cancelled iff not so and `SubmissionStatus` is exactly `"Rejected"`; pending iff neither |
| App.RedirectIsStrict | App.jsx:49-51 | `status: "1"` and `"rejected"` both lead to the pending screen; `"Rejected"` leads to the cancelled one |
| App.RedirectIgnoresClientType | App.jsx:46-56 | changing `clientTypeId` never changes the page |
| App.SavedSessionRoutes | App.jsx:49-55 | a session made by `saveSession` goes to the dashboard if its `status` is the number 1, else to the pending screen, never to the cancelled one |
| App.ReloadedIsOne | App.jsx:49 | a value is the number 1 after a JSON trip iff it was before |
| App.ReloadKeepsRoute | App.jsx:46-56 | after saving and restarting, the reloaded session routes exactly as the saved one did |
| App.UnreadCount | App.jsx:104 | the unread count never exceeds the number of notifications |
| App.UnreadCountSplit | App.jsx:125 | the unread count of a concatenation is the sum of the counts |
| App.UnreadCountAll | App.jsx:104 | the count equals the length iff every notification is unread |
| App.AppContent.constructor | App.jsx:39-43 | starts on `dashboard`, dropdown closed, cloud up, loading, no notifications |
| App.AppContent.Render | App.jsx:65-71 | nothing iff not ready; the auth screen iff ready without a session; the cloud-error screen iff ready with a session and the cloud down; the page view iff ready with a session and the cloud up, showing the selected page with header and footer exactly off approval screens; both screens carry the unread count |
| App.AppContent.OnSessionChanged | App.jsx:46-56 | the selected page becomes the redirect of the session; other state is unchanged |
| App.AppContent.HandleMenuSelect | App.jsx:73-79 | `logout` clears the session, keeps the page and then renders the auth screen; any other key becomes the page and leaves the session and storage alone |
| App.AppContent.HandleHeaderLogout | App.jsx:81-83 | clears the session, after which a ready app renders the auth screen |
| App.AppContent.HandleNotificationNavigation | App.jsx:85-88 | closes the dropdown and selects the given screen |
| App.AppContent.HandleRetry | App.jsx:90-92 | leaves the cloud-error state and changes nothing else |
| App.AppContent.ToggleNotifications | App.jsx:124 | flips the dropdown and changes nothing else |
| UserProfile.ProfileAfter | src/context/UserContext.js:27-36 | the profile changes only on an ok reply, and then to its data |
| UserProfile.UserProvider.constructor | src/context/UserContext.js:17-18 | no profile, loading |
| UserProfile.UserProvider.LoadProfile | src/context/UserContext.js:20-40 | a request is made iff ready with a truthy `clientId`, and then it is `getApprovedClient(clientId)`; otherwise nothing changes; after a request, loading is off and the profile follows `ProfileAfter` |
| UserProfile.ProfileOutcomes | src/context/UserContext.js:29-39 | a non-ok reply and a thrown error keep the profile; an ok reply replaces it |
| UserProfile.SavedSessionLoadsProfile | src/context/UserContext.js:15-27 | a saved session with a nonzero numeric `ClientId` requests the profile with exactly that id as `userId` |
| UserProfile.NaNClientIdNeverLoadsProfile | src/context/UserContext.js:15-21 | with a non-numeric `ClientId`, neither the saved nor the reloaded session ever requests the profile |
| ApiConfig.KeptParams | src/apiConfig.js:22-26 | the query has at most as many entries as there are parameters |
| ApiConfig.KeptParamsExact | src/apiConfig.js:43-47 | every query entry is `(k, String(v))` for a parameter whose value is not nullish, and every such parameter appears |
| ApiConfig.KeptParamsAppend | src/apiConfig.js:43-47 | entries keep the parameters' order: the query of `a + b` is that of `a` followed by that of `b` |
| ApiConfig.AppendParams | src/apiConfig.js:43-47 | the `forEach` loop builds exactly `KeptParams(params)` |
| ApiConfig.SingleParam | src/apiConfig.js:22-26 | one parameter gives one entry unless it is nullish |
| ApiConfig.LookupSpread | src/apiConfig.js:49-55 | in a spread, a key of the later object reads its value there; any other key reads the base |
| ApiConfig.Headers | src/apiConfig.js:49-55 | the headers always include `Content-Type` |
| ApiConfig.HeadersSent | src/apiConfig.js:49-55 | a header is sent iff it is `Content-Type` or a key of `options.headers`; its value comes from `options.headers` first |
| ApiConfig.TokenOnlyIfGiven | src/apiConfig.js:63-71 | no `authToken` header is sent unless `options.headers` has one |
| ApiConfig.OwnerBuildingsDropsToken | src/apiConfig.js:141-143 | `getOwnerBuildings` sends only `Content-Type` and no query, so its login key never reaches the server |
| ApiConfig.LoginBody | src/apiConfig.js:78-82 | the login is a POST to `/login` with a body of exactly `UserId` and `Password` |
| ApiConfig.HistoryBodies | src/apiConfig.js:103-135 | both history helpers send the same six-key body to different URLs; `Byoffice` defaults to `false` and `OfficeIds` to `""` only when `undefined` |
| ApiConfig.FinalBillQuery | src/apiConfig.js:96-100 | the office id goes under the lower-case `officeid`, after `userId` |
| ApiConfig.NullishParamDropped | src/apiConfig.js:93-94 | a nullish `userId` gives an empty query |
| ApiConfig.SingleParamHelpers | src/apiConfig.js:85-94 | each one-parameter helper sends its argument, stringified, under its own name; the dashboard helper goes to the dashboard server with only `Content-Type` |
| ApiConfig.TicketRequest | src/apiConfig.js:146-157 | a ticket is posted to the dashboard server, not the API server, with `Content-Type` only and the payload as given |
| BillHistory.MonthsDiffLaws | src/screens/BillHistory.jsx:27-32 | the month difference is the difference of month indices: zero on the same month, antisymmetric, additive |
| BillHistory.MonthsDiffZero | src/screens/BillHistory.jsx:27-32 | for months 0–11 the difference is zero iff the two months are equal |
| BillHistory.NormalizeBill | src/screens/BillHistory.jsx:75-83 | the payment method is always `"Online Payment"` |
| BillHistory.NormalizeBills | src/screens/BillHistory.jsx:75-83 | succeeds iff no item is nullish, and then gives one bill per item, in order, each the item's normalisation |
| BillHistory.NormalizeBillFallbacks | src/screens/BillHistory.jsx:75-83 | `id` is `String(BillId)` when truthy, else `String(Gen_No)`; the type and currency are used as given when truthy, else `"Bill"` and `"AED"`; the amount is `Number(BillAmount)` when truthy, else 0 |
| BillHistory.FilterBills | src/screens/BillHistory.jsx:102-114 | the filter never lengthens the list |
| BillHistory.AllKeepsEverything | src/screens/BillHistory.jsx:109-112 | any filter other than `last6` returns the list unchanged |
| BillHistory.LastSixExact | src/screens/BillHistory.jsx:105-111 | under `last6` a bill is shown iff it is in the list and its date is valid and 0–5 months before today |
| BillHistory.FilterSplits | src/screens/BillHistory.jsx:105-113 | the filter distributes over concatenation, so it keeps the order |
| BillHistory.LastSixExcludes | src/screens/BillHistory.jsx:106-111 | an invalid, future or six-months-old date is never shown under `last6` |
| BillHistory.BadRepliesFail | src/screens/BillHistory.jsx:71-73 | a thrown request, a non-ok reply or a non-array reply yields no bills |
| BillHistory.NullishBillFails | src/screens/BillHistory.jsx:75-83 | an ok array reply holding a nullish bill yields no bills at all |
| BillHistory.BillHistoryScreen.constructor | src/screens/BillHistory.jsx:44-47 | filter `all`, no bills, loading, no error |
| BillHistory.BillHistoryScreen.FetchBillHistory | src/screens/BillHistory.jsx:51-92 | a request is made iff `loginKey` and `clientId` are truthy, with the fixed history arguments; otherwise nothing changes; a good reply replaces the bills and clears the error; any failure keeps the bills and sets "Unable to load bill history"; loading ends off |
| BillHistory.BillHistoryScreen.SetActiveFilter | src/screens/BillHistory.jsx:137 | the chip's key becomes the filter; nothing else changes |
| BillHistory.BillHistoryScreen.Shown | src/screens/BillHistory.jsx:102-114 | every filter but `last6` shows all bills |
| RaiseTicket.ValidationOrder | src/screens/RaiseTicket.jsx:151-165 | a missing login key wins; otherwise any empty name, phone, unit or meter gives the missing-fields alert; with those filled, an empty issue type gives the missing-issue alert; the ticket is sent iff all six are truthy |
| RaiseTicket.BuildingNotRequired | src/screens/RaiseTicket.jsx:157 | building and description never affect validation |
| RaiseTicket.TicketPayload | src/screens/RaiseTicket.jsx:170-179 | the payload has exactly the eight keys `Key` … `Description` |
| RaiseTicket.PayloadFields | src/screens/RaiseTicket.jsx:170-179 | each payload key holds its form field verbatim, and `Key` holds the login key |
| RaiseTicket.FailureMessage | src/screens/RaiseTicket.jsx:183-196 | the error alert's message is never empty |
| RaiseTicket.FailureMessages | src/screens/RaiseTicket.jsx:183-196 | for every failed reply, the message is the reply's `message` when truthy, else "Failed to raise ticket"; a truthy `message` that is empty as a string, or an empty error, gives "Something went wrong"; a thrown error gives its own message |
| RaiseTicket.RenderChoice | src/screens/RaiseTicket.jsx:545-551 | a dashboard view is shown iff the tab is `dashboard` |
| RaiseTicket.RenderChoices | src/screens/RaiseTicket.jsx:545-551 | `loading` matters only on the dashboard tab; the form tab shows the form iff its placeholder is off; the dashboard skeleton shows iff loading on the dashboard tab |
| RaiseTicket.TicketScreen.constructor | src/screens/RaiseTicket.jsx:72-86 | dashboard tab, form placeholder off, no profile or meters, all fields `""` |
| RaiseTicket.TicketScreen.FetchProfileData | src/screens/RaiseTicket.jsx:97-113 | a request is made iff `clientId` is truthy; an ok, truthy reply prefills name, phone, building and unit (each falling back to `""`); otherwise the form is unchanged |
| RaiseTicket.TicketScreen.FetchMeters | src/screens/RaiseTicket.jsx:120-131 | a request is made iff `loginKey` is truthy; only an ok array reply replaces the meters |
| RaiseTicket.TicketScreen.HandleAddTicketPress | src/screens/RaiseTicket.jsx:137-140 | opens the `add` tab with its placeholder on; the form is unchanged |
| RaiseTicket.TicketScreen.FormTimerFired | src/screens/RaiseTicket.jsx:142-144 | the placeholder goes off |
| RaiseTicket.TicketScreen.HandleBackToDashboard | src/screens/RaiseTicket.jsx:147-149 | returns to the dashboard tab; nothing else changes |
| RaiseTicket.TicketScreen.HandleSaveTicket | src/screens/RaiseTicket.jsx:151-200 | a validation failure shows its alert and changes nothing; otherwise the payload of the form is sent, the placeholder ends off, and on success only issue type, meter and description are reset, with the tab back on the dashboard |
| PaymentHistory.CustomerName | src/screens/PaymentHistory.jsx:77 | the customer name is never empty |
| PaymentHistory.BuildingName | src/screens/PaymentHistory.jsx:78 | the building name is never empty |
| PaymentHistory.NoProfileDefaults | src/screens/PaymentHistory.jsx:76-81 | without a profile the name and building show `"—"`, the unit is `""` and the label is `"—"` |
| PaymentHistory.ProfileFieldsShown | src/screens/PaymentHistory.jsx:76-79 | for a present profile, name, building and unit are each the profile's own field when truthy; otherwise name and building give `"—"` and the unit `""` |
| PaymentHistory.LabelJoinsUnit | src/screens/PaymentHistory.jsx:80-81 | the label is `"<building> - <unit>"` when the unit is non-empty, else the building; it is never empty |
| PaymentHistory.BadPaymentReplies | src/screens/PaymentHistory.jsx:53-55 | a non-ok reply, a non-array reply or a thrown request yields no payments; an ok array reply yields its items |
| PaymentHistory.PaymentHistoryScreen.constructor | src/screens/PaymentHistory.jsx:14-17 | loading, no profile, no payments, no error |
| PaymentHistory.PaymentHistoryScreen.LoadData | src/screens/PaymentHistory.jsx:21-66 | nothing happens unless ready with `loginKey` and `clientId`; a thrown profile request skips the payment request and sets the error; otherwise an ok profile reply is kept, a good payment reply replaces the payments, a bad one keeps them and sets "Failed to load payment history."; loading ends off |
| OwnerBuildingSelect.Address | src/screens/Owner/OwnerBuildingSelect.jsx:61 | the address line is never empty |
| OwnerBuildingSelect.ItemFallbacks | src/screens/Owner/OwnerBuildingSelect.jsx:60-84 | the title is `Name`, else `BuildingName`; the address falls back to `"No address"`; the key is `String(Id)`, else `String(BuildingId)` |
| OwnerBuildingSelect.KeylessItemsCollide | src/screens/Owner/OwnerBuildingSelect.jsx:84 | items without `Id` and `BuildingId` all get the key `"undefined"` |
| OwnerBuildingSelect.FetchAlerts | src/screens/Owner/OwnerBuildingSelect.jsx:30-38 | a falsy or non-ok reply gives "Failed to load buildings.", a thrown request "An unexpected error occurred.", an ok truthy reply no alert |
| OwnerBuildingSelect.OwnerBuildingSelectScreen.constructor | src/screens/Owner/OwnerBuildingSelect.jsx:17-18 | no buildings, loading |
| OwnerBuildingSelect.OwnerBuildingSelectScreen.FetchBuildings | src/screens/Owner/OwnerBuildingSelect.jsx:22-42 | without a login key: the session alert and no request; otherwise `getOwnerBuildings(loginKey)` is sent and the alert follows `FetchAlert`; buildings change only on success; loading always ends off |
| OwnerBuildingSelect.OwnerBuildingSelectScreen.HandleLogout | src/screens/Owner/OwnerBuildingSelect.jsx:47-49 | clears the session as `saveSession(null)` does |

## Left out

- Rendering, styling and every JSX tree. `Header.jsx`, `TenantApprovalPending.jsx` and `TenantRequestCancelled.jsx` are presentational and are not part of this model.
- `fetch`, `res.json()` and URL encoding are not modelled. A request is the value handed to `fetch` (`Request`), and its result is an `Outcome` parameter.
- AsyncStorage is a `map<string, string>`. Concurrent storage calls and interleaved handlers are not modelled; each handler or effect body is one sequential step.
- Numbers are integers or NaN. Fractions, exponents, hexadecimal, binary (`0b`) and octal (`0o`) literals and infinities are not modelled; `Number` gives NaN for such text, where JavaScript reads `0b101` as 5 and `0o17` as 15. JavaScript numbers are doubles, and the model's `Num(int)` is exact: integers beyond 2^53 do not lose precision in `Number(...)`, and `String(n)` does not switch to exponent form for |n| ≥ 10^21.
- `toFixed(2)` on bill amounts is not modelled: `BillHistory.NormalizeBill` keeps the number before formatting.
- The JSON text codec reads and writes JSON without white space and with integers only. It follows JSON's rules for leading zeros, string escapes and raw control characters, so every text it accepts is also accepted by `JSON.parse`; `-0` reads as the number 0. `Json.Parse` rejects valid JSON outside that part: white space, fractions, exponents and `\u` escapes of surrogate halves. `Json.Stringify` treats objects and arrays only as data, so `toJSON`, functions and symbols are not modelled.
- Dates are not modelled: `new Date()`, `setMonth`, `toISOString` and `formatApiDate`. Bill dates reach the filter through a `parseDate` parameter, and the request date strings are parameters.
- Session.SessionStore.LoadSession: stored text that is valid JSON with white space, fractions, exponents or escaped surrogate halves is treated as unparsable, so the prior session is kept where the app would load that value.
- Session.LoadFailuresKeepSession: its unparsable case covers that same valid JSON, which the app would load. Text written by `saveSession` never holds it (`Json.SerializeRoundTrip`).
- Timers are not modelled: the one-second app loader, and the 700 ms ticket-form timer, which is a separate step (`FormTimerFired`). The `mounted` flag on the payment screen and effect re-run timing are not modelled either.
- `Alert.alert` and `Linking.openURL` are not modelled as side effects. Alerts are returned as values.
- `options.headers` given as a string or array is not spread; only an object's properties are.
- Selecting an owner's building hands the raw item to the `onSelect` prop, a callback outside this code. The screen changes no state there, so no member models it.
- Screens the shell routes to (dashboard, profile, contracts, payments, notifications) are not part of this model. The shell's page is their string key.
- `OwnerBuildingSelect.DisplayName`, `OwnerBuildingSelect.Address` and `OwnerBuildingSelect.ListKey`: these require a non-null item, because reading a property of a null item throws.
- `ApiConfig.GetBillHistory` and `ApiConfig.GetPaymentHistory`: these require a non-null argument, because destructuring `null` throws and every caller passes an object.

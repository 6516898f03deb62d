# AuqMia session coordinator — a Dafny model

This project models `AuthProvider`, the React context provider of the AuqMia
pet-adoption client (`src/contexts/AuthContext.tsx`). The provider keeps the
session in memory (`listAnimals`, `user`, `loading`, `isLogged`,
`modalUpdateUser` and three UI toggles). It persists the bearer token and the
user id under the `localStorage` keys `@AuqMia:token` and `@AuqMia:id`, and
it sets the shared HTTP client's default `Authorization` header. It drives
bootstrap, login, logout (`backProfile`), the animal catalog (`getAnimals`,
`deleteAnimal`), profile update and sign-up.

Files:

- `outcomes.dfy`: `Option`, and `Outcome` = `Ok(value) | Err`. This is how a service call settled: its promise was fulfilled or rejected.
- `js_values.dfy`: the JavaScript values the code handles. It covers property access, template-literal interpolation (integers rendered in decimal, with a parse-back round trip), JavaScript truthiness of a `string | null`, and `toUpperCase` restricted to ASCII.
- `registration.dfy`: the pure sign-up payload normaliser from `registerUser`, its inverse and lemmas.
- `session.dfy`: `KeyValueStore` (`localStorage`), `HttpClient` (only its default headers), and the `AuthProvider` class. The class has one method per operation. Each method states its whole new state with `Snapshot() == old(Snapshot()).(...)`, so every field that is not named is unchanged.
- `scenarios.dfy`: client code that runs whole flows and is proved from the class contracts alone.

Every remote call (`getUsers`, `getAnimalsApi`, `loginUsers`, `upDateUserApi`,
`api.delete`, `api.post`) is a parameter: the `Outcome` the caller says it
settled with. Requests, notifications (`toast.success` / `toast.error`) and
navigations are appended in order to the provider's `events` log.

The code's own behaviour is modelled as written, including these quirks:

- Bootstrap and login set the default header `bearer <token>`. `deleteAnimal` sends `Bearer <token>`, using the token read from storage at call time. When no token is stored, that header is `Bearer null`.
- The session invariant has two halves, stated as two predicates.
  - `CredentialInPlace`: when logged in, the token is stored and the client's default header is derived from it.
  - `TokenUsable`: when logged in, the stored token is non-empty, so bootstrap would accept it.
- `loginUser` never checks the token it receives. An accepted login with an empty token establishes `CredentialInPlace` but not `TokenUsable`. `LoginUser` proves that `TokenUsable` holds afterwards exactly when the token is non-empty.
- `backProfile` removes the two storage entries and navigates to `/`. It keeps `isLogged`, `user` and the header. Logging out therefore breaks both halves, and `BackProfile` proves that it does. Every other operation preserves `CredentialInPlace`. All of them except an accepted login with an empty token also preserve `TokenUsable`. Bootstrap with a truthy token establishes both.
- Bootstrap marks the session logged in whatever the profile fetch later returns.
- `deleteAnimal` re-fetches the catalog only when the delete was fulfilled. A rejected delete shows no notice.
- `registerUser` throws a `TypeError` synchronously when `state` is not a string. In that case nothing is posted.
- In the payload, a form field named `address` overrides the built address, because `...restData` is spread after it.

## Model

| member | source | states |
|---|---|---|
| `Session.AuthProvider.constructor` | src/contexts/AuthContext.tsx:49-56 | Initial state: empty catalog, empty user, `loading` true, `isLogged` false, the three toggles true, update dialog closed, nothing logged. Storage and headers are as found. The session invariant holds. |
| `Session.AuthProvider.LoadUser` | src/contexts/AuthContext.tsx:58-78 | A truthy stored token sets the headers to exactly `{Authorization: "bearer "+token}` before the profile and catalog requests go out, so both carry that header, and sets `isLogged`. Otherwise no request is sent and nothing but `loading` changes. `loading` always ends false. Both halves of the invariant are preserved, and established when the token is truthy. |
| `Session.AuthProvider.Mount` | src/contexts/AuthContext.tsx:58-82 | Bootstrap followed by the second effect's own catalog request. With a truthy token all three requests carry `bearer <token>`; without one, the single catalog request carries the client's headers as they were. The invariant is preserved. |
| `Session.AuthProvider.UserFetched` | src/contexts/AuthContext.tsx:66-68 | The unawaited profile fetch settles: on fulfilment `user` becomes the profile. A rejection changes nothing. |
| `Session.AuthProvider.AnimalsFetched` | src/contexts/AuthContext.tsx:121-125 | A catalog fetch settles: the list is replaced wholesale (no merge), or left unchanged on rejection. Nothing else changes. |
| `Session.AuthProvider.GetAnimals` | src/contexts/AuthContext.tsx:120-126 | Exactly one catalog request. The list becomes the response, or stays the same on rejection. |
| `Session.AuthProvider.LoginUser` | src/contexts/AuthContext.tsx:84-108 | Success: the header is `bearer <accessToken>`, `user` is the response user, `isLogged` is true. Storage gains the token and `${user.id}`; the rest of storage is unchanged. Log: request, one success notice, replace-navigation to `/profile`. `CredentialInPlace` is established, and `TokenUsable` holds exactly when the token is non-empty (the token is not checked). Failure: only the request and one failure notice. |
| `Session.AuthProvider.BackProfile` | src/contexts/AuthContext.tsx:110-114 | Exactly the two credential keys are removed and a navigation to `/` is logged. Nothing else changes. A logged-in session stays logged in with both halves of the invariant broken. |
| `Session.AuthProvider.LoginRoute` | src/contexts/AuthContext.tsx:116-118 | Only a navigation to `/login` is logged. |
| `Session.AuthProvider.DeleteAnimal` | src/contexts/AuthContext.tsx:128-135 | Sends DELETE `animals/<id>` with `Bearer <stored token or null>`, reading the token at call time. Fulfilled delete: one re-fetch, and the list follows its outcome. Rejected delete: no re-fetch, list unchanged, and the call reports rejection. |
| `Session.AuthProvider.UpdateUser` | src/contexts/AuthContext.tsx:137-148 | Success: `user` becomes the server's answer (not a merge with the patch), the dialog closes, one success notice. Failure: `user` and the dialog are unchanged, one failure notice. |
| `Session.AuthProvider.RegisterUser` | src/contexts/AuthContext.tsx:150-172 | Throws exactly when the payload cannot be built, and then nothing changes. Otherwise the normalised payload is posted to `/register`. Success: a notice and a replace-navigation to `/login`. Failure: a failure notice. `isLogged`, `user`, storage and headers never change. |
| `Session.AuthProvider.SetLoginButton` | src/contexts/AuthContext.tsx:53 | Stores the given value and nothing else. |
| `Session.AuthProvider.SetDonationButton` | src/contexts/AuthContext.tsx:54 | Stores the given value and nothing else. |
| `Session.AuthProvider.SetAdopted` | src/contexts/AuthContext.tsx:55 | Stores the given value and nothing else. |
| `Session.AuthProvider.SetModalUpdateUser` | src/contexts/AuthContext.tsx:56 | Stores the given value and nothing else. |
| `Session.KeyValueStore.SetItem` | src/contexts/AuthContext.tsx:98-100 | After `setItem(k, v)`, `getItem(k)` answers `v`, and every other key answers what it did before. |
| `Session.KeyValueStore.RemoveItem` | src/contexts/AuthContext.tsx:112-113 | After `removeItem(k)`, `getItem(k)` answers `null`, and every other key answers what it did before. |
| `Session.SchemeCasingDiffers` | src/contexts/AuthContext.tsx:63-64 | The default header `bearer <t>` and the delete header `Bearer <t>` (line 132) differ for every token. |
| `Session.DeleteWithoutTokenSendsNull` | src/contexts/AuthContext.tsx:129-132 | With no stored token the delete header is the literal `Bearer null`. |
| `Session.CountToastsAppend` | src/contexts/AuthContext.tsx:93-106 | Notification counts add up over concatenated logs. This is what "exactly one notice" is measured with. |
| `JsValues.Interpolate` | src/contexts/AuthContext.tsx:100 | `${v}` (also at lines 64, 89 and 132) inserts a string verbatim, `null` and `undefined` as their names, and an integer as its canonical numeral: digits with no leading zero (`-` first when negative), which parses back to that integer. |
| `JsValues.Truthy` | src/contexts/AuthContext.tsx:61 | `if (token)` on a `string` or `null` is taken exactly when the token is present and non-empty. It is defined through JavaScript's general `ToBoolean`. |
| `JsValues.InterpolateNullable` | src/contexts/AuthContext.tsx:129-132 | `${x}` of a string-or-null value is the string itself, or `"null"`. |
| `JsValues.Digits` | src/contexts/AuthContext.tsx:100 | The decimal numeral of a natural number is non-empty, all digits, and has no leading zero unless it is `0`. |
| `JsValues.DecimalRoundTrip` | src/contexts/AuthContext.tsx:100 | An interpolated integer reads back as the same integer. |
| `JsValues.AsciiUpper` | src/contexts/AuthContext.tsx:153 | `toUpperCase` keeps the length and maps each character on its own, only `a`..`z` changing. |
| `JsValues.AsciiUpperHasNoLower` | src/contexts/AuthContext.tsx:153 | The result has no lower-case letter. |
| `JsValues.AsciiUpperFixedPoint` | src/contexts/AuthContext.tsx:153 | Upper-casing leaves a string unchanged if and only if it has no lower-case letter. |
| `Registration.Normalize` | src/contexts/AuthContext.tsx:150-155 | Succeeds if and only if `state` is a string. The payload keys are the input's minus `confirm_password`/`state`/`district`/`city`, plus `address`. Every other field passes through unchanged. `address` is `{state: upper(state), city, district}`, unless the input has its own `address`, which wins. |
| `Registration.FlattenNormalize` | src/contexts/AuthContext.tsx:151-155 | Round trip: a complete form with an upper-case state and no `address` field is recovered exactly from its payload plus its confirmation. |
| `Registration.NormalizedStateIsUpper` | src/contexts/AuthContext.tsx:153 | The built address's state is a string with no lower-case letter, and it has the input state's length. |
| `Registration.RegistrationExample` | src/contexts/AuthContext.tsx:150-155 | The form `{..., confirm_password:"x", state:"sp", city:"c", district:"d"}` gives exactly `{address:{state:"SP", city:"c", district:"d"}, ...}`. |
| `Scenarios.AcceptedLogin` | src/contexts/AuthContext.tsx:84-101 | From a fresh start, an accepted login for id 1 and token "tok" leaves: logged in, stored token "tok", stored id "1", header `bearer tok`, one success notice and no failure notice. |
| `Scenarios.RejectedLogin` | src/contexts/AuthContext.tsx:102-107 | A rejected login leaves the session logged out and storage empty, with exactly one failure notice and no success notice. |
| `Scenarios.LogoutThenRestart` | src/contexts/AuthContext.tsx:110-114 | After login and logout, the old provider still reports logged in and no token is stored. A restart that keeps only the storage (a fresh HTTP client) is logged out and sends only the catalog request, with no `Authorization` header. |
| `Scenarios.RestartWithStoredToken` | src/contexts/AuthContext.tsx:58-82 | A restart with token "tok" stored ends with the session logged in and loading over. Its profile request and both catalog requests carry `bearer tok`. |
| `Scenarios.EmptyTokenLogin` | src/contexts/AuthContext.tsx:58-98 | An accepted login with an empty token logs the session in. The stored token is refused by a restart's `if (token)`, so the restarted session is logged out. |
| `Scenarios.DeleteTwice` | src/contexts/AuthContext.tsx:128-135 | For two distinct animals, deleting one that the re-fetch drops removes it from the catalog. Deleting it again is rejected, keeps the catalog, and sends no second catalog request. |

## Left out

- The React machinery is not modelled: `createContext`, `useState`, `useEffect`, re-rendering and the provider's JSX. The state is held in class fields, and each setter call becomes a field assignment.
- Asynchrony is not modelled. Each awaited call is modelled as one step with its outcome given. So are the unawaited `loginUsers(data).then(...)` in `loginUser` and `api.post(...).then(...)` in `registerUser`: the request and the handler of its settlement form one step. Nothing else can happen between the two. The fire-and-forget profile and catalog fetches of bootstrap and of the second effect are modelled as a request in the log plus separate completion methods (`UserFetched`, `AnimalsFetched`). The model does not track which requests are still pending and does not reason about the order in which they complete.
- The service modules and the HTTP client (`api`, `getAnimalsApi`, `loginUsers`, `upDateUserApi`, `getUsers`) are not part of this model. Their results are the caller's `Outcome`s. Only the client's default headers are state. Each logged request records the default headers in effect when it was issued. The model does not know whether a service module sends through this client.
- Toast texts, durations and themes are not modelled, and neither is `console.log`. Notices are recorded only as success or failure.
- Payload serialisation (JSON encoding, where `undefined` fields are dropped) is left out. `Normalize` gives the object before encoding.
- JsValues.AsciiUpper: only `a`..`z` are upper-cased. Unicode and locale-dependent case mapping is not modelled.
- Values are JSON-like, and numbers are the safe integers (magnitude at most 2^53 - 1). `${n}` prints these as plain decimal numerals. Arrays, fractional numbers, larger numbers and their exponent or rounded renderings are not modelled.
- A login response missing its `user` field, which would make line 100 throw after the token is stored, is not modelled: the response is a typed record.
- Storage failures are not modelled: `localStorage` is a map whose reads and writes always succeed, with no access denial and no quota. In the source, a throwing `getItem` at line 60 sits outside the `try`, so `loadUser` would reject before line 75 and `loading` would stay true. A throwing `setItem` at line 98 or 100 would reach the `.catch` at line 102, adding a failure notice after the success notice and after the state changes already made. The model's "`loading` always ends false" and its login success path hold only for storage that does not fail.
- The `try`/`catch` in bootstrap (lines 71-73) has no reachable throwing path in the modelled steps, so it is left out.

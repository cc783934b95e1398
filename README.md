# Auth sessions and the HTTP error envelope of nest-restapi, in Dafny

This project models the two parts of the NestJS backend that hold logic:

- **`AuthService`** (`src/auth/auth.service.ts`): email/password login
  (`validateLogin`), "who am I" (`me`), token refresh (`refreshToken`) and
  logout (`logout`), with the token minting they share (`getTokensData`).
  It is modelled as the class `Auth.AuthService`. The class holds the user
  store, the `auth.*` configuration and the password comparison as
  constants. The session store is a field that login and logout change.
  Its ids come from a SERIAL counter, and rows are soft-deleted.
- **`HttpExceptionFilter.catch`** (`src/filters/http-exception.filter.ts`):
  the mapping from an HttpException's status and response payload to the
  envelope `{success, code, errors?, message}`. It is modelled as the pure
  function `HttpExceptionFilter.Catch` over JavaScript values, with
  JavaScript truthiness for `errors` and `message`.

Modules, one per component:

| module | file | what |
|---|---|---|
| `Wrappers` | wrappers.dfy | `Option`, `Result` |
| `JsValues` | js_values.dfy | JavaScript values, truthiness, `||`, property reads |
| `Exceptions` | exceptions.dfy | thrown values; the 422, 401 and 500 exceptions the service throws |
| `HttpExceptionFilter` | exception_filter.dfy | the envelope and its JSON body |
| `Users` | users.dfy | the user rows and `findOne` by email or id |
| `SessionStore` | session_store.dfy | session rows, `findOne` and `softDelete` |
| `Tokens` | tokens.dfy | configuration, claims, tokens, `getTokensData` |
| `Auth` | auth_service.dfy | the login checks, the `catch` block, the `AuthService` class |

Foreign calls are replaced as follows:

- `bcrypt.compare` is the constant `passwordMatches`. A stored hash that is
  not a string makes `bcrypt.compare` reject. The model treats that as a
  non-HTTP error.
- JWT signing yields a record `{claims, secret, expiresIn}`.
- `Date.now()` is the parameter `now`.
- `ms()` is the `millis` half of a configured `Duration`.
- `ConfigService.getOrThrow` is the record `AuthConfig`. A key that is not
  set makes the call throw.
- The reverse table of NestJS's `HttpStatus` enum is the parameter `names`.
  A code missing from it gives `undefined`.

Behaviour of the code worth knowing:

- An unknown email is rejected with 422 `{email: 'notFound'}`, like the
  other two business rejections.
- The envelope's `message` is whatever truthy `message` the payload carries,
  so it is not always a string. It is `undefined`, and so absent from the
  JSON body, when the payload has no truthy `message` and the status has no
  enum name.
- The two token signings are awaited one after the other.
- A missing configuration key during login fails with a 500, but only
  after the session has been created. That session stays active.
- `refreshToken` has no `catch` block. A missing configuration key, or a
  session whose user cannot be loaded, escapes as a plain error rather than
  an HttpException.

## Model

| member | source | states |
|---|---|---|
| `HttpExceptionFilter.Catch` | src/filters/http-exception.filter.ts:6-28 | fails exactly for a null or undefined payload; otherwise `success` is false and `code` is the status; `errors` is present iff the payload is a non-array object with truthy `errors`, and then equals it; a string payload is the message; an array, number or boolean payload gives the status name; an object payload gives its truthy `message`, else the status name |
| `HttpExceptionFilter.Body` | src/filters/http-exception.filter.ts:18-29 | the JSON body has only the keys success, code, errors, message; errors is there iff set; message is there iff not undefined |
| `HttpExceptionFilter.EnvelopeKeys` | src/filters/http-exception.filter.ts:18-27 | for every accepted payload, the body's keys are exactly success and code, plus errors when the object payload has truthy errors, plus message unless it is undefined |
| `HttpExceptionFilter.MessageIsText` | src/filters/http-exception.filter.ts:27 | the message is a string for string, array and object payloads whose `message` is a string when present, once the status has a name |
| `Users.FindByEmail` | src/users/users.service.ts:22-26 | returns a visible row with exactly that email, or none iff no row has it |
| `Users.FindById` | src/users/users.service.ts:22-26 | returns a visible row with that id, or none iff no row has it |
| `Users.FindByEmailFinds` | src/database/migrations/1712059471521-Users.ts:20 | with the UNIQUE email constraint, the lookup by a user's email returns that user |
| `Users.FindByIdFinds` | src/database/migrations/1712059471521-Users.ts:20 | with the primary key on id, the lookup by a user's id returns that user |
| `SessionStore.FindActive` | src/auth/auth.service.ts:104-108 | finds a session iff its id is present and it is not soft-deleted |
| `SessionStore.SoftDelete` | src/auth/auth.service.ts:127-131 | marks only the given session deleted, keeps its owner and every other row; a missing id changes nothing |
| `SessionStore.SoftDeleteHides` | src/database/migrations/1712060980551-Session.ts:8 | a soft-deleted session is no longer found; others are found as before |
| `SessionStore.SoftDeleteIdempotent` | src/auth/auth.service.ts:127-131 | soft-deleting twice equals soft-deleting once |
| `Tokens.MissingKey` | src/auth/auth.service.ts:134-163 | none iff all four `auth.*` keys are set |
| `Tokens.GetTokensData` | src/auth/auth.service.ts:133-172 | fails iff a key is missing, naming the first one read; the access token has claims exactly {id, role, sessionId} under the access secret and duration; the refresh token has claims exactly {sessionId} under the refresh secret and duration; tokenExpires is now plus the access duration |
| `Tokens.TokenExpiresIgnoresRefreshSettings` | src/auth/auth.service.ts:134-138 | tokenExpires does not depend on the refresh duration or the secrets |
| `Tokens.LaterTokensExpireLater` | src/auth/auth.service.ts:138 | minting later gives a strictly later tokenExpires and the same tokens |
| `Auth.Authenticate` | src/auth/auth.service.ts:29-69 | no user with the email: 422 {email: notFound}; provider not 'email': 422 {email: needLoginViaProvider:<provider>} whatever the password; no stored hash: a non-HTTP error; wrong password: 422 {password: incorrectPassword}; otherwise that user |
| `Auth.Rethrow` | src/auth/auth.service.ts:87-92 | the result is always an HttpException; an HttpException passes unchanged; anything else becomes 500 'Internal server error' |
| `Auth.LoginRejectionEnvelope` | src/auth/auth.service.ts:33-91 | a rejected login's envelope is code 422 with the single field error and the status name, or code 500 with message 'Internal server error' and no errors |
| `Auth.FieldErrorEnvelope` | src/filters/http-exception.filter.ts:12-27 | a 422 field error renders as code 422, errors = the field map, message = the status name |
| `Auth.UnauthorizedEnvelope` | src/auth/auth.service.ts:110-112 | a refresh rejection renders as code 401, no errors, message 'Unauthorized' |
| `Auth.AuthService.constructor` | src/auth/auth.service.ts:20-25 | stores the user store, configuration, password check and session store, and establishes the invariant |
| `Auth.AuthService.CreateSession` | src/auth/auth.service.ts:71-73 | adds one active session owned by the user under a fresh id and advances the counter |
| `Auth.AuthService.ValidateLogin` | src/auth/auth.service.ts:27-93 | rejections leave the sessions unchanged; after the checks pass, exactly one new active session for the user, kept even when minting fails; only 422 or 500 HttpExceptions escape; on success the user has the email, both tokens carry the new session id, and refreshing with it yields the same tokens |
| `Auth.AuthService.Me` | src/auth/auth.service.ts:95-99 | the user with the token's id, or none iff there is none; no change |
| `Auth.AuthService.RefreshToken` | src/auth/auth.service.ts:101-125 | Unauthorized iff the session is missing or soft-deleted; other failures are plain errors; an active session whose owner is visible, with every key set, refreshes successfully; a success is exactly GetTokensData for the owner's id and role and the same session id (access claims and secret/duration, refresh claims and secret/duration, tokenExpires) |
| `Auth.AuthService.Logout` | src/auth/auth.service.ts:127-131 | soft-deletes only that session, is not an error for a missing one, and afterwards refreshing it is Unauthorized |
| `Auth.AuthService.RefreshLater` | src/auth/auth.service.ts:114-124 | refreshing an active session later gives the same tokens and a strictly later tokenExpires |

## Left out

- Signing and verifying JWTs: tokens are claim records. The library also adds `iat`/`exp` claims, which are not modelled.
- Tokens.GetTokensData: an `auth.secret` or `auth.refreshSecret` set to the empty string passes `getOrThrow`, but signing then fails because the JWT module is registered without a fallback secret (src/auth/auth.module.ts:15). That failure is a 500 after the session exists in `validateLogin`, and a plain error in `refreshToken`. The model returns tokens in this case.
- Hashing: `bcrypt.compare` is an uninterpreted function, and its timing is not modelled.
- Parsing durations with `ms()`: the configuration carries the parsed value. An unparsable duration string (NaN expiry) is not modelled.
- The wall clock, and the ambient configuration lookup beyond "set or not set".
- Database failures of the user and session stores, and cancellation of a request half-way: neither is modelled.
- The ORM's exclusion of soft-deleted rows: this is an assumption of the stores. The user store holds only visible rows, and `FindActive` skips deleted sessions. A session whose user is not visible is treated as having no loaded user.
- `deleted_at` is modelled as a flag, without its timestamp.
- `response.status(status).json(...)`, the Express write of the envelope: `Body` gives what would be written.
- The full `HttpStatus` enum of NestJS is not part of this model. Its reverse table is a parameter.
- JavaScript numbers are integers here. NaN and fractions are not modelled. Built-in properties of strings, numbers and arrays are never read by this code and are not modelled.
- Case folding or other transformation of the login email by the request DTO: the DTO is not part of this model.
- Controllers, modules, guards, the JWT strategies, `UsersService.create`, the category module and the migrations' DDL: routing, wiring and generated schema. The migrations serve only as evidence for the store invariants.

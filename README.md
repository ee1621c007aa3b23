# basicAuth: login flow, display time and user table

A Dafny model of the logic in a small server-rendered web application with
username/password authentication and cookie sessions:

- **Auth** (`auth.dfy`): the login route's two field validators and its
  server action. The action takes one submitted form and either creates a
  session or returns structured error data. It works against an abstract user
  store. The behaviour is the pure function `Auth.Action`, which returns the
  outcome and the new store. The class `Auth.AuthServer` holds the store as
  mutable fields, and its `Submit` method runs the action step by step, in the
  route's order, calling the store operations as methods. `Submit` is proved
  equal to `Action`.
- **UserStore** (`user_store.dfy`): the abstract store that the route uses
  through its session module and database handle. It holds users by username
  (id and secret), a counter for fresh ids and the client's session slot. It
  also has the store invariant, which every submission keeps. The invariant
  says usernames are non-empty and unique, ids are unique, and a session names
  a stored user. The module also renders an integer id as the string the
  session is bound to, with its parse-back round trip.
- **Time** (`time.ts` helper): shifting an instant by the timezone offset
  that the environment reports for a reference instant. The offset is in
  minutes. Both branches of the source's conditional are proved to be the one
  formula `t - 60000 * offset`. The module also proves the direction and size
  of the shift and the round trip. Both inputs and the result pass through
  `new Date(...)`, whose out-of-range values become the invalid date; an
  invalid input makes the result invalid.
- **Listing** (home page): the timestamp cell formatter. It takes the
  `toJSON` string, replaces its first `T` with a space and keeps what comes
  before the first `.`. The module also covers the `-` placeholder for a
  missing last login and the user list fallback (`users() ?? false`).

Inputs the model cannot see are parameters:
- the environment's `getTimezoneOffset` rule, as `timezoneOffset: int -> int`;
- whether the store's `register` fails, as `createFails`;
- the ISO string `toJSON` produced, in place of a `Date`.

Two behaviours of the route worth noting:
- A missing `redirectTo` does not fail the shape check. The `||` fallback
  turns it, and the empty string, into `"/"`. A file upload in that field
  is truthy, so it survives the fallback and then fails the shape check.
- The register branch's conflict and creation errors carry only the echoed
  fields and no `fieldErrors`, just like the login branch's credential error.
  Only the validation error has a field map.

## Model

| member | source | states |
|---|---|---|
| Auth.ValidateUsername | src/routes/login.tsx:8-12 | a message exactly when the value is not a string or is empty, and then it is the "Usernames must be at least 1 characters long" text |
| Auth.ValidatePassword | src/routes/login.tsx:14-18 | a message exactly when the value is not a string or is empty, and then it is the password text |
| Auth.AnyFieldError | src/routes/login.tsx:43-47 | `some(Boolean)` over the field errors holds exactly when some field has a message (both messages are non-empty, so truthy) |
| Auth.DefaultRedirect | src/routes/login.tsx:37 | a missing value or the empty string becomes `"/"`; every other value, a file included, is kept; the result is never missing or empty |
| Auth.RedirectTarget | src/routes/login.tsx:37 | for a well-shaped form the target is the submitted string when that was non-empty, and `"/"` when it was missing or empty |
| Auth.Action | src/routes/login.tsx:33-80 | a failure never changes the store or the session. The shape error holds exactly when a field is not a string (after the fallback), and it carries the generic message and nothing else. A field error holds exactly when the shape is fine and a field is empty; it comes with the per-field map of both validators' results and the echoed fields, whatever the login type. A session is created exactly for a matching login or for a registration that is new and accepted. The session is bound to the id string of the stored user with that username and password, it redirects to the requested target, and login leaves the users unchanged while registration adds exactly that username. The store invariant is kept |
| Auth.ValidationBeforeDispatch | src/routes/login.tsx:42-51 | an empty username gives "Fields invalid" with the field map and the echoed fields, and the store is unchanged, even for an unknown login type |
| Auth.LoginNoMatch | src/routes/login.tsx:52-58 | `"login"` with no matching user gives the "incorrect" error with the echoed fields, and the store and session are unchanged |
| Auth.LoginSucceeds | src/routes/login.tsx:53-59 | `"login"` with a matching user gives one session, bound to that user's id string, redirecting to the target; only the session slot changes |
| Auth.RegisterTaken | src/routes/login.tsx:61-67 | `"register"` with an existing username gives the "already exists" error naming it, and the store is unchanged (register is not reached) |
| Auth.RegisterFails | src/routes/login.tsx:68-73 | when the store yields no user, the result is the generic creation error, with no session and no change |
| Auth.RegisterSucceeds | src/routes/login.tsx:68-74 | a new username is stored under the next id with its password, the counter advances, and the one session is bound to that id |
| Auth.UnknownLoginType | src/routes/login.tsx:76-78 | a login type other than the two that passes validation gives "Login type invalid" with the echoed fields and no change |
| Auth.SessionIdentifiesUser | src/routes/login.tsx:59-74 | after any submission on a valid store, the session string names at most one stored user |
| Auth.AuthServer.Login | src/routes/login.tsx:53 | the lookup finds a user exactly when the username is stored with that password; it changes nothing |
| Auth.AuthServer.FindUnique | src/routes/login.tsx:62 | the lookup finds a user exactly when the username is stored; it changes nothing |
| Auth.AuthServer.Register | src/routes/login.tsx:68 | the new state and the returned user are those of the store's register |
| Auth.AuthServer.CreateUserSession | src/routes/login.tsx:59 | overwrites the session slot with the id string and answers with the redirect to the target |
| Auth.AuthServer.Submit | src/routes/login.tsx:33-80 | the step-by-step action returns the outcome of `Action` and leaves exactly its new store; the store invariant is kept |
| UserStore.Register | src/routes/login.tsx:68-69 | fails exactly when the store fails or the username is taken, and then changes nothing; otherwise adds exactly that username with that password, under an id no stored user has, and keeps the invariant for a non-empty username |
| UserStore.IdString | src/routes/login.tsx:59 | `${user.id}` of an integer id is a non-empty string of decimal digits without a leading zero |
| UserStore.ParseIdString | src/routes/login.tsx:59 | reading the id string back gives the id |
| UserStore.IdStringInjective | src/routes/login.tsx:59 | distinct ids give distinct session strings |
| UserStore.SessionNamesOneUser | src/routes/login.tsx:59-74 | in a valid store, two users whose id strings are equal are the same user |
| Time.Abs | src/utils/time.ts:11-12 | `Math.abs` is the value or its negation and never negative |
| Time.Shift | src/utils/time.ts:10-12 | both branches compute `t - 60000 * offset`. A zero offset returns `t`, a negative one moves later and a positive one earlier. The distance is `60000 * abs(offset)` |
| Time.MakeDate | src/utils/time.ts:14 | `new Date(value)` is valid exactly within the 8.64e15 ms bound, and then holds the value |
| Time.GetTime | src/utils/time.ts:1-15 | the result is valid exactly when the date, the reference instant and the shifted time are all in range, and then it is the date shifted by the reference instant's offset |
| Time.GetTimeInvalidInput | src/utils/time.ts:5-8 | an out-of-range date or reference instant gives the invalid date |
| Time.DependsOnlyOnOffset | src/utils/time.ts:5-8 | two reference instants that are both valid or both invalid and have the same offset give the same result |
| Time.ShiftRoundTrip | src/utils/time.ts:10-12 | shifting by `o` and then by `-o` restores the instant |
| Time.GetTimeRoundTrip | src/utils/time.ts:10-14 | a second valid reference whose offset is the negation of the first takes a valid shifted date back to the original |
| Listing.IndexOf | src/routes/index.tsx:40 | the position found is the first occurrence, or the length when there is none |
| Listing.ReplaceFirst | src/routes/index.tsx:40 | string-pattern `replace` keeps the length and changes only the position of the first occurrence |
| Listing.FirstPiece | src/routes/index.tsx:40 | `split(sep)[0]` is the prefix of the input that ends at its first separator, so it has no separator, and is the whole input when the separator is absent |
| Listing.IndexOfAfterReplace | src/routes/index.tsx:40 | replacing `T` by a space does not move the first `.` |
| Listing.FormatTimestamp | src/routes/index.tsx:40 | the output is as long as the input before its first `.`, so no longer than the input, and has no `.`. It equals the input there, except that the first `T` becomes a space |
| Listing.FormatIsReplacedPrefix | src/routes/index.tsx:40 | the output is the input's prefix before the first `.`, with its first `T` replaced |
| Listing.FormatIsoInstant | src/routes/index.tsx:40 | `YYYY-MM-DDTHH:mm:ss.sssZ` is shown as `YYYY-MM-DD HH:mm:ss` |
| Listing.LastLoginCellDistinct | src/routes/index.tsx:40-41 | a missing last login shows `-`. A present one uses the same rule as the creation time, and for an ISO instant it never shows as `-` |
| Listing.RenderRows | src/routes/index.tsx:35-46 | one row per user, in order, each rendered by the row rule |
| Listing.Rows | src/routes/index.tsx:35 | an absent list renders no rows; a present one renders one row per user, in order |
| Listing.ShowsFallback | src/routes/index.tsx:35 | the `Empty` fallback shows exactly when the list is absent or empty |

## Left out

- JSX rendering, Solid signals and the form and radio markup of both pages: presentation.
- `createServerData$`, `createServerAction$`, `redirect` and thrown `FormError`s: framework mechanics, modelled as returned `Outcome` values.
- `getUser`, `logout`, the cookie and the token format of the session module: that module is not part of this model. The session is one slot holding a user-id string.
- Updating `lastLogin` on a successful login and setting `createdAt` on registration: this happens in the unseen session module, so the stored user has only an id and a secret.
- Password hashing: the stored secret is compared by equality.
- `useUser` and `useUsers`: thin wrappers over the framework. The error swallowing in `useUsers` depends on promise semantics. Its result reaches the model only as an optional user list.
- The race between the existence check and `register`: concurrency. The model is sequential, and the store itself still refuses a taken username.
- UserStore.IdString: assumes integer ids below 10^21. The store schema is not part of this model, and JavaScript writes larger numbers in exponent form.
- `Date` parsing, `toJSON` and `getTimezoneOffset`: environment-dependent. Instants are integer milliseconds and offsets integer minutes, and both are inputs. Fractional historical offsets, unparsable date strings and extended-year ISO strings are not modelled.

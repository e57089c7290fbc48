# ContaSimples client authentication — a Dafny model

This project models the authentication state of the ContaSimples web client,
the `AuthProvider` of `frontend/src/hooks/auth.tsx`. The provider keeps three
pieces of state in step:

- the device store (`localStorage`), of which it uses the keys
  `@ContaSimples:token` and `@ContaSimples:user`;
- the HTTP client's default `authorization` header, one global slot;
- its in-memory data, the object `{}` or `{ token, user }`.

It has four transitions: the restore run when the provider is created, `signIn`,
`signOut` and `updateUser`.

Files:

- `wrappers.dfy` — `Option` and `Result`.
- `user_json.dfy` (module `UserJson`) — the user profile and its serialised
  form. `Encode` writes what `JSON.stringify` writes for `{ id, name, email }`,
  including the string escapes of ECMAScript's QuoteJSONString. `Decode` reads
  that object shape back and accepts every JSON string escape except `\u`
  escapes naming surrogates. The round trip
  `Decode(Encode(u)) == Some(u)` is proved.
- `auth.dfy` (module `Auth`) — the store as a `map<string, string>`, the
  header as an `Option<string>`, the data as `AuthData(token, user)` with each
  field present or undefined. The restore is the function `Load`, characterised
  by the lemma `LoadOutcome`, and the method `Mount`. The class
  `AuthProvider` has the methods `SignIn`, `SignOut`
  and `UpdateUser`. `ReloadAgrees` (and `AuthProvider.Coherent`) is the
  invariant "a restore from the store now would give back exactly the data
  held and the header in force".

What the model shows:

- Sign-in with a non-empty token establishes the invariant, whatever was held before.
- Sign-out establishes it and leaves the header alone.
- A rejected sign-in changes nothing.
- Updating the user keeps the invariant while a token is held.
- Updating the user with no token stored breaks it: memory holds a user, but a
  restart comes back signed out.

Three behaviours of the code worth noting:

- A stored user that `JSON.parse` rejects is not treated as "signed out". The
  restore writes the header (line 35) and then throws at line 37. `Mount`
  returns `Err(MalformedUser(header))`, which carries the header already written.
- "Both keys present" means both keys present and non-empty (line 34 tests
  truthiness). So a sign-in whose token is `""` holds a session that a restart
  does not restore (`EmptyTokenIsNotRestored`).
- `updateUser` has no guard. Called while signed out, it yields the object
  `{ token: undefined, user }`.

## Model

| member | source | states |
|---|---|---|
| `Auth.LoadOutcome` | frontend/src/hooks/auth.tsx:30-41 | the restore never yields a partial state. Either it holds nothing and leaves the header as found, or it holds a non-empty token read from the token key and the user parsed from the user key, with the header `Bearer <token>`. If either key is absent or empty, it yields `{}` with the header untouched. When both keys are non-empty and the user parses, it holds that token and user with the header `Bearer <token>`. It fails only when both keys are non-empty and the stored user does not parse, and then only after the header was set to `Bearer <stored token>`. |
| `Auth.Mount` | frontend/src/hooks/auth.tsx:30-41 | creating the provider reads the store without changing it. It ends with the data and header `Load` describes, or fails with the same error. A provider it creates is coherent. |
| `Auth.LoadIsStable` | frontend/src/hooks/auth.tsx:30-41 | restoring again from what a restore left behind gives the same data and header |
| `Auth.AuthProvider.SignOut` | frontend/src/hooks/auth.tsx:43-48 | both keys are removed and nothing else in the store changes. The data becomes `{}` and the header is unchanged. Afterwards memory and store agree. |
| `Auth.SignOutReloadsEmpty` | frontend/src/hooks/auth.tsx:43-48 | after both keys are removed, a restore holds nothing and keeps the header |
| `Auth.SignOutTwice` | frontend/src/hooks/auth.tsx:43-48 | signing out twice gives the same store, data and header as signing out once |
| `Auth.AuthProvider.SignIn` | frontend/src/hooks/auth.tsx:50-64 | a rejected request returns its error and changes neither store, header nor data. An accepted one `(t, u)` sets the token key to `t` and the user key to `Encode(u)`, and leaves every other key alone. It sets the header to `Bearer t` and the data to `{t, u}`, whatever was held before. With `t` non-empty, memory and store then agree. |
| `Auth.SignInReloads` | frontend/src/hooks/auth.tsx:31-61 | after the sign-in writes with a non-empty token, a restore gives back `{t, u}` and the header `Bearer t` |
| `Auth.EmptyTokenIsNotRestored` | frontend/src/hooks/auth.tsx:34 | a token stored as `""` is falsy. A restore after such a sign-in holds nothing, so the session `{"", u}` is not restored. |
| `Auth.RestartAfterSignIn` | frontend/src/hooks/auth.tsx:30-63 | a page reload after a successful sign-in with a non-empty token, starting from no header, comes back signed in as the same user with the header `Bearer <token>` |
| `Auth.AuthProvider.UpdateUser` | frontend/src/hooks/auth.tsx:66-76 | the user key becomes `Encode(u)` and nothing else in the store changes. The data keeps its previous token, present or undefined, with user `u`. The header is unchanged. Agreement with the store is kept when a token was held. |
| `Auth.UpdateUserKeepsAgreement` | frontend/src/hooks/auth.tsx:66-73 | from an agreeing state that holds a token, rewriting the user key and the data's user keeps memory and store in agreement |
| `Auth.UpdateUserWithoutTokenIsLost` | frontend/src/hooks/auth.tsx:66-73 | with no truthy token stored, the update stores a truthy user anyway. A restore then holds nothing, so the data `{undefined, u}` disagrees with the store. |
| `Auth.RestartAfterUpdateWhileSignedOut` | frontend/src/hooks/auth.tsx:43-73 | after sign-out and then `updateUser(u)`, memory holds `{undefined, u}`, yet a page reload starting from no header comes back signed out |
| `UserJson.Decode` | frontend/src/hooks/auth.tsx:37 | `JSON.parse` restricted to the shape `JSON.stringify` writes, `None` where the model refuses the input; whatever it accepts is an object literal that opens with the `id` key and ends with `}` |
| `UserJson.Encode` | frontend/src/hooks/auth.tsx:59 | the serialised user is never empty (so it is truthy at line 34) and is an object literal `{…}` |
| `UserJson.EscapeRoundTrip` | frontend/src/hooks/auth.tsx:59 | reading back an escaped string literal gives the original characters and stops exactly at its closing quote |
| `UserJson.DecodeEncode` | frontend/src/hooks/auth.tsx:37 | `JSON.parse` (line 37) gives back the user that `JSON.stringify` wrote (lines 59 and 68) |

## Left out

- React wiring: `createContext`, the `useCallback` dependency lists, `AuthContext.Provider`, the context value exposing `data.user`, and `useAuth` (lines 27, 78-93). The model exposes the data as the field `AuthProvider.data`.
- The HTTP call `api.post('/sessions', { email, password })`. The response is an input `Result<Session, RequestError>`, so the credentials sent are not modelled. The axios instance (`../services/api`) is not part of this model.
- Real `localStorage` I/O. The store is a map field. Storage quota errors from `setItem` are not modelled.
- `JSON.parse` beyond the object shape `JSON.stringify` writes. `Decode` refuses whitespace, other key orders, extra keys, and `\u` escapes naming surrogate code units. `JSON.parse` accepts all of these, and it accepts non-object values such as `null`, which would put a non-user into the data. Stored users are written only by `Encode` in this client.
- A server user object with fields beyond `id`, `name` and `email`. `JSON.stringify` at line 59 would store those fields too. `User` has only the three fields of `IUser`.
- A response body without a string `token` or `user` (line 56). The `Session` type rules this out.
- Overlapping `signIn` calls and the order they resolve in. Also a stale `data.token` captured by the `updateUser` closure before a re-render. Both are event-loop and re-render behaviour; the model runs every operation to completion, one after another.
- `backend/src/shared/infra/http/routes/index.ts` (lines 9-13). It mounts the `/users`, `/password` and `/sessions` routers and has no logic of its own.

# GrowEasy to-do app: session, routing guard and table rules in Dafny

This project models the sequential logic of the GrowEasy to-do app, a React Native (Expo) client with a FastAPI and Prisma back end. The rest of the app is screens and styling. The model covers:

- **Session store** (`useAuth`, module `Session`): a class with the fields `auth`, `isReady` and `onboardingCompleted` over a key-value storage object (`Storage.KeyValueStorage`, standing for AsyncStorage) that holds the keys `auth_token` and `onboarding_completed`. Each operation writes storage first and then sets memory. The class invariant `Valid` ties memory to storage in two ways. Once the store is ready, `auth` equals the stored token. Whenever the onboarding flag is known, it equals whether the stored value is "true". Every operation preserves it. The HTTP call is an input: a function from the request to the response. Whether a storage write succeeds is also an input.
- **Routing guard** (`RootLayoutNav`'s effect and `RootLayout`'s render gate, module `RoutingGuard`): a pure function from the session state and the first route segment to an optional redirect. It is proved equivalent to an independent table of the places each state may rest on (`AllowedPlaces`), and every redirect target is proved a fixed point.
- **Onboarding stepper** (module `Onboarding`): a class holding `currentStep`, kept within the three slides. It has Next, Previous, Skip and Complete, and the labels that depend on the step.
- **Sign-up and log-in screens** (modules `SignupScreen`, `LoginScreen`, sharing `Screens`): the ordered validation chains, and the sequence of alerts, `loading` changes and store calls each handler makes, proved against the store's contracts.
- **Back end** (modules `Passwords`, `BearerAuth`, `Todos`, `Users`):
  - the bcrypt pre-hash rule, with UTF-8 encoding written out (module `Unicode`);
  - `Authorization` header parsing, which is identical in `backend/app/routers/todos.py:15-25` and `backend/app/routers/auth.py:64-74` and is modelled once;
  - the todo table (CRUD with an ownership check);
  - the user table (signup, login, Google login, `/auth/me`).

  bcrypt, SHA-256, JWT and Google's token verification are function-typed parameters. What the lemmas assume of them is stated as predicates: `Passwords.BcryptRoundTrips` and `BearerAuth.JwtRoundTrips`.
- **Flows** (module `Flows`): operation sequences checked against the contracts above, for example:
  - the fresh-install journey from landing through sign-up and onboarding to the tabs and back;
  - signing up after signing out, when the guard no longer redirects, because the onboarding flag is unknown;
  - finishing onboarding when saving the flag fails, which the guard immediately undoes;
  - signup followed by login.

Three details of the code shape the model:
- An empty-string token counts as signed out, because the guard tests `!auth` (`frontend/my-app/app/_layout.tsx:37`).
- PATCH `/todos/{id}` accepts `title` as well as `completed` (`backend/app/routers/todos.py:61-65`).
- `signOut` awaits both storage removals before clearing memory (`frontend/my-app/utils/auth/useAuth.ts:96-97`).

## Model

| member | source | states |
|---|---|---|
| `Common.OrElse` | frontend/my-app/utils/auth/useAuth.ts:33 | `a \|\| fallback` on strings: the value when it is truthy, else the fallback; non-empty whenever the fallback is |
| `Unicode.Utf8Encode` | backend/app/routers/auth.py:20 | `str.encode('utf-8')`: between one and four bytes per character |
| `Unicode.AsciiEncoding` | backend/app/routers/auth.py:23 | an ASCII string (the hex digest) encodes to one byte per character, each byte its code point |
| `Unicode.Utf16Length` | frontend/my-app/app/auth/signup.tsx:31 | JavaScript's `length`: characters outside the BMP count twice, so it lies between `\|s\|` and `2\|s\|` |
| `Passwords.HexDigest` | backend/app/routers/auth.py:23 | `hexdigest()`: 2 lower-case hex digits per byte, high nibble first, all ASCII |
| `Passwords.PreHash` | backend/app/routers/auth.py:20-23 | the bytes given to bcrypt are never more than 72. They are the UTF-8 encoding when that fits in 72 bytes, otherwise the 64-byte UTF-8 hex SHA-256 digest |
| `Passwords.HashPassword` | backend/app/routers/auth.py:18-25 | the stored hash is bcrypt applied to at most 72 bytes (the pre-hash) under the given salt |
| `Passwords.VerifyPassword` | backend/app/routers/auth.py:28-37 | true exactly when bcrypt's check of the same pre-hashed bytes returns True; a raising check gives False |
| `Passwords.HashThenVerify` | backend/app/routers/auth.py:18-37 | because both sides pre-hash alike, every password, however long, verifies against its own non-empty hash (given bcrypt's round trip) |
| `Passwords.VerifyFailsClosed` | backend/app/routers/auth.py:34-37 | when bcrypt raises, verification is False rather than an error |
| `BearerAuth.CreateAccessToken` | backend/app/routers/auth.py:59-61 | the token encodes the subject with an expiry seven days (604800 seconds) after the time of issue |
| `BearerAuth.Partition` | backend/app/routers/auth.py:67 | `partition(" ")`: the text before the first space contains no space, and the header equals scheme + " " + rest; with no space, the rest is empty |
| `BearerAuth.AsciiLower` | backend/app/routers/auth.py:68 | lower-cases exactly the letters A-Z and keeps every other character |
| `BearerAuth.GetCurrentUser` | backend/app/routers/todos.py:15-25 | a missing or empty header gives 401 "No auth". A scheme other than bearer (in any case) gives 401 "Invalid scheme". A bearer header whose token does not decode gives 401 "Invalid token". Otherwise the result is Ok with the payload's `sub`, and Ok happens exactly in that case |
| `BearerAuth.PartitionAtFirstSpace` | backend/app/routers/todos.py:18 | a space-free scheme followed by a space and any token splits back into that scheme and that token |
| `BearerAuth.IssuedTokenAuthenticates` | backend/app/routers/auth.py:59-74 | a header "Bearer &lt;token&gt;" (any case) with a token created at time t authenticates its subject until t plus seven days (given the JWT round trip) |
| `Todos.OwnedBy` | backend/app/routers/todos.py:39 | `where userId == u` keeps only rows owned by u and never grows the table |
| `Todos.OwnedByMembers` | backend/app/routers/todos.py:39 | a row is in the filtered list exactly when it is in the table and owned by u; the list is a sub-multiset of the table |
| `Todos.OwnedByConcat` | backend/app/routers/todos.py:39 | filtering by owner distributes over concatenation of tables |
| `Todos.OwnedByReplace` | backend/app/routers/todos.py:67-70 | replacing a row by one with the same owner leaves every other user's rows unchanged |
| `Todos.OwnedByRemove` | backend/app/routers/todos.py:80 | removing a row leaves every other user's rows unchanged |
| `Todos.PrependNewest` | backend/app/routers/todos.py:39 | a row no older than every row of a newest-first list can go at its front |
| `Todos.BelowHead` | backend/app/routers/todos.py:39 | inserting an older row into the tail keeps every row there no newer than the head |
| `Todos.InsertNewestFirst` | backend/app/routers/todos.py:39 | inserting into a newest-first sequence keeps it newest first and adds exactly that row |
| `Todos.SortNewestFirst` | backend/app/routers/todos.py:39 | `order createdAt desc`: a newest-first permutation of its input |
| `Todos.FindOwned` | backend/app/routers/todos.py:57 | `find_first(id, userId)`: an index of a row with that id and owner, or None exactly when no such row exists |
| `Todos.ApplyUpdate` | backend/app/routers/todos.py:67-70 | Prisma's update changes exactly the columns present in the update data; id, owner and creation time are kept; empty data leaves the row unchanged |
| `Todos.BuildUpdateData` | backend/app/routers/todos.py:61-65 | `update_data` has a column exactly when that input is not None, carrying the input's value, and has no other columns |
| `Todos.TodoTable.ListTodos` | backend/app/routers/todos.py:37-40 | the result holds exactly the caller's rows (as a multiset), newest first |
| `Todos.TodoTable.CreateTodo` | backend/app/routers/todos.py:43-51 | appends exactly one uncompleted row with the title, the caller as owner and a fresh id; existing rows and other users' rows are unchanged; ids stay unique |
| `Todos.TodoTable.UpdateTodo` | backend/app/routers/todos.py:54-71 | 404 and no change unless the caller owns the id. Otherwise only that row changes, and within it only the supplied fields; the updated row is returned; other users' rows are unchanged |
| `Todos.TodoTable.DeleteTodo` | backend/app/routers/todos.py:74-81 | 404 and no change unless the caller owns the id. Otherwise exactly that row is removed and `ok: true` is returned; other users' rows are unchanged |
| `Users.FindByEmail` | backend/app/routers/auth.py:79 | `find_unique(email)`: the index of a row with that email, or None exactly when there is none |
| `Users.FindById` | backend/app/routers/auth.py:145 | `find_unique(id)`: the index of a row with that id, or None exactly when there is none |
| `Users.Issue` | backend/app/routers/auth.py:90-91 | the token response has `token_type` "bearer" and a fresh access token for the user's id |
| `Users.IssuedResponseAuthenticates` | backend/app/routers/auth.py:90-91 | the response's `token_type`, a space and its `access_token` form a header that authenticates the user for seven days (given the JWT round trip) |
| `Users.CredentialsMatch` | backend/app/routers/auth.py:97 | login accepts a user exactly when the stored hash is present and non-empty, and bcrypt's check of the pre-hashed password against it returns True |
| `Users.UserTable.Signup` | backend/app/routers/auth.py:77-91 | a taken email gives 400 "Email exists" and no change. Otherwise exactly one user is appended (email, bcrypt hash, name, no Google id), with a token for its id; ids and emails stay unique |
| `Users.UserTable.Login` | backend/app/routers/auth.py:94-103 | Ok exactly when a user with that email has a non-empty password hash that verifies; then the token is for that user; otherwise 401 "Invalid credentials" |
| `Users.UserTable.GoogleLogin` | backend/app/routers/auth.py:106-140 | an empty token gives 400, a rejected one 401, and neither changes anything. An unknown email creates one user; an existing user without a Google id gets only `googleId` set; one with it is unchanged. The token is for that user; emails stay unique |
| `Users.UserTable.GetMe` | backend/app/routers/auth.py:143-153 | 404 "User not found" exactly when no user has the id; otherwise that user's id, email, name and creation time |
| `Session.TokenExchange` | frontend/my-app/utils/auth/useAuth.ts:23-45 | it succeeds exactly on an accepted response whose write succeeds, and then storage and memory both hold the token. Otherwise nothing changes and the error is `detail`, its fallback, the network error or the storage error |
| `Session.RejectionHasMessage` | frontend/my-app/utils/auth/useAuth.ts:31-34 | a server rejection always throws a non-empty message |
| `Session.AuthStore.constructor` | frontend/my-app/utils/auth/useAuth.ts:18-21 | the initial state is `auth = null`, `isReady = false`, `onboardingCompleted = null` |
| `Session.AuthStore.SignIn` | frontend/my-app/utils/auth/useAuth.ts:23-45 | POST /auth/login with fallback "Login failed"; token and storage as `TokenExchange` says; `isReady` and the onboarding flag are unchanged |
| `Session.AuthStore.SignInWithGoogle` | frontend/my-app/utils/auth/useAuth.ts:47-69 | POST /auth/google with fallback "Google login failed"; as SignIn otherwise |
| `Session.AuthStore.SignUp` | frontend/my-app/utils/auth/useAuth.ts:71-93 | POST /auth/signup with fallback "Signup failed"; the onboarding flag is left alone |
| `Session.AuthStore.SignOut` | frontend/my-app/utils/auth/useAuth.ts:95-99 | both keys are removed and nothing else; `auth` and the onboarding flag become null; `isReady` is kept |
| `Session.AuthStore.Initiate` | frontend/my-app/utils/auth/useAuth.ts:101-109 | `auth` becomes the stored token (null when absent), the flag becomes true exactly when the stored value is "true", and the store is ready |
| `Session.AuthStore.CheckOnboarding` | frontend/my-app/utils/auth/useAuth.ts:111-114 | only the flag changes, to whether the stored value is exactly "true" |
| `Session.AuthStore.CompleteOnboarding` | frontend/my-app/utils/auth/useAuth.ts:116-119 | on a written "true" the flag becomes true; on a failed write it throws and neither storage nor memory changes |
| `RoutingGuard.PlaceOf` | frontend/my-app/app/_layout.tsx:31-35 | a missing, empty or "index" segment is the landing page; "auth", "onboarding" and "(tabs)" are their groups |
| `RoutingGuard.Redirect` | frontend/my-app/app/_layout.tsx:28-56 | no redirect before ready. Signed out (falsy token): "/" exactly from the tabs or onboarding. Flag false: "/onboarding" unless already there. Flag true: "/(tabs)" exactly from landing or auth. Flag null: never |
| `RoutingGuard.RedirectIffNotAllowed` | frontend/my-app/app/_layout.tsx:37-55 | the guard does nothing exactly where the independent `AllowedPlaces` table lets the state rest |
| `RoutingGuard.RedirectTargetIsFixedPoint` | frontend/my-app/app/_layout.tsx:37-55 | every redirect target is an allowed place, so re-running the guard there with the same state does not redirect again |
| `RoutingGuard.SignedOutSettlesOutsideProtectedScreens` | frontend/my-app/app/_layout.tsx:37-41 | a signed-out user at rest is never on the tabs or onboarding, and any redirect they get is to the landing page |
| `RoutingGuard.RootLayout` | frontend/my-app/app/_layout.tsx:70-97 | nothing is rendered exactly while the store is not ready; once rendered, the navigator carries the guard's decision |
| `Screens.LoadingAfterNoSet` | frontend/my-app/app/auth/login.tsx:19-22 | events that never set `loading` leave it as it was |
| `Screens.FailureAlert` | frontend/my-app/app/auth/signup.tsx:42 | the failure alert shows the error's message, or the fallback when the message is empty |
| `SignupScreen.SignupValidation` | frontend/my-app/app/auth/signup.tsx:21-34 | none of the three checks fails exactly when email, password and name are non-empty, the confirmation matches and the password has at least 6 UTF-16 units. Otherwise the first failing check's text is returned, in source order |
| `SignupScreen.SignUpCalledIffValid` | frontend/my-app/app/auth/signup.tsx:20-46 | `signUp` is called, and then exactly once, if and only if all three checks pass |
| `SignupScreen.LoadingCoversTheCall` | frontend/my-app/app/auth/signup.tsx:36-45 | `loading` is true when `signUp` is called and false at the end on success and failure alike; a failed check never changes it |
| `SignupScreen.SignupForm.HandleSignup` | frontend/my-app/app/auth/signup.tsx:20-46 | the events are those of `SignupEvents` for how `signUp` ends; the store changes exactly as `signUp` specifies and not at all on a failed check |
| `LoginScreen.EmptyFieldCallsNothing` | frontend/my-app/app/auth/login.tsx:19-22 | an empty email or password shows "Please fill in all fields" and nothing else; `loading` is unchanged |
| `LoginScreen.CheckOnboardingOnlyAfterSignIn` | frontend/my-app/app/auth/login.tsx:25-32 | `checkOnboarding` follows `signIn` and is called exactly when `signIn` succeeded |
| `LoginScreen.LoadingCoversTheCalls` | frontend/my-app/app/auth/login.tsx:24-35 | `loading` is true when `signIn` is called and false again at the end of every path |
| `LoginScreen.LoginForm.HandleLogin` | frontend/my-app/app/auth/login.tsx:18-36 | the events are those of `LoginEvents`; on success the store holds the token and the re-read flag; a failure shows `error.message` or "Invalid credentials" |
| `Onboarding.Advance` | frontend/my-app/app/onboarding.tsx:51-61 | Next adds one below the last slide and completes instead exactly on the last |
| `Onboarding.Retreat` | frontend/my-app/app/onboarding.tsx:86-94 | Previous subtracts one above the first slide and does nothing on it; always within the slides |
| `Onboarding.AdvanceRetreatInverse` | frontend/my-app/app/onboarding.tsx:51-94 | Previous undoes Next and Next undoes Previous wherever both move |
| `Onboarding.PressesToCompleteCount` | frontend/my-app/app/onboarding.tsx:16-61 | from step k, Next completes on the (3 - k)th press |
| `Onboarding.NextButtonLabel` | frontend/my-app/app/onboarding.tsx:157 | the label is "Get Started" exactly on the last slide, "Next" otherwise |
| `Onboarding.ShowsPrevious` | frontend/my-app/app/onboarding.tsx:144 | the Previous button shows exactly where Previous would move |
| `Onboarding.CompletionRoute` | frontend/my-app/app/onboarding.tsx:71-82 | "/(tabs)" exactly when the token is truthy, "/" otherwise |
| `Onboarding.OnboardingScreen.constructor` | frontend/my-app/app/onboarding.tsx:42 | the screen starts on the first slide |
| `Onboarding.OnboardingScreen.HandleComplete` | frontend/my-app/app/onboarding.tsx:67-84 | saves the flag as `completeOnboarding` says, then routes by the token whether or not saving failed |
| `Onboarding.OnboardingScreen.HandleNext` | frontend/my-app/app/onboarding.tsx:51-61 | moves to the next slide without touching the store, or completes on the last slide; the step stays in range |
| `Onboarding.OnboardingScreen.HandlePrevious` | frontend/my-app/app/onboarding.tsx:86-94 | the step becomes `Retreat` of the old one and stays in range |
| `Onboarding.OnboardingScreen.HandleSkip` | frontend/my-app/app/onboarding.tsx:63-65 | completes from any slide, leaving the step alone |
| `Flows.FreshInstallJourney` | frontend/my-app/utils/auth/useAuth.ts:71-119 | an example run from a fresh install: initiate, sign up, complete onboarding and sign out, checking the guard at each step; it ends ready and signed out, with the onboarding flag unknown and storage empty |
| `Flows.SignUpAfterSignOutStaysOnAuth` | frontend/my-app/utils/auth/useAuth.ts:71-99 | after sign-out, a successful sign-up leaves the flag null, so the guard does not move the user off the auth screens |
| `Flows.CompleteThenCheck` | frontend/my-app/utils/auth/useAuth.ts:111-119 | after a successful `completeOnboarding`, `checkOnboarding` leaves the flag true |
| `Flows.FinishOnboarding` | frontend/my-app/app/onboarding.tsx:67-84 | a signed-in user finishing onboarding is routed to the tabs. The guard lets them stay if saving worked, and sends them back to onboarding if it failed |
| `Flows.SignupThenLogin` | backend/app/routers/auth.py:77-103 | a fresh signup followed by login with the same password returns a token for the new account |

## Left out

- Presentation is not part of this model: styles, layout, the slide animation (`withSpring`, `translateX`), icons, the splash screen, the theme, and the keyboard-avoiding view.
- `useGoogleAuth.ts`, `useUser.ts`, `config.ts`, `main.py` and `prisma_client.py` are not part of this model. They are SDK glue, a query wrapper, constants and wiring.
- `users.py` is not modelled separately. Its `get_current_user` is textually the same as `BearerAuth.GetCurrentUser`, and its `get_profile` is the same as `UserTable.GetMe`.
- Async interleaving, React effect scheduling and re-rendering are left out. Each operation is one atomic step. The `loading` flag's role of disabling the buttons is presentation.
- bcrypt, SHA-256, JWT signing and expiry, Google token verification and the clock are opaque parameters. Their assumed behaviour appears only as lemma hypotheses.
- Prisma's generated ids and timestamps are inputs, with ids required to be fresh. Prisma's own errors (constraint violations, connection failures) are not modelled.
- `fetch` is a function from request to response. A response body that is not JSON, a 2xx body without `access_token`, and a non-string `detail` (FastAPI's 422 list) are not modelled.
- Storage writes can fail, but reads and removals always succeed, so `signOut` and `checkOnboarding` never throw.
- `console.error` logging is left out.
- The handlers in `Todos` and `Users` take the caller's id as a string, after FastAPI has run the `get_current_user` dependency. A decoded token without `sub` gives `None`, which the routers would pass on to Prisma. Tokens made by `create_access_token` always carry `sub`, so this case is not modelled.
- `BearerAuth.AsciiLower` models Python's `str.lower()` on ASCII letters only. No other character lower-cases into a letter of "bearer", so the comparison is unaffected.
- Lone UTF-16 surrogates cannot be represented, because a Dafny `char` is a Unicode scalar value. Python would raise when encoding such a password.
- `Todos.TodoTable.CreateTodo` assumes two defaults of the Prisma schema, which is not part of this model: a new row has `completed` false, and `createdAt` is the creation time (the `now` input). The router itself passes only the title and the owner.
- Pydantic's request validation is not modelled, including `EmailStr` checking and normalising emails.
- A Google token's `email` and `sub` claims are assumed present (`Users.GoogleInfo`). Only `name` is optional.
- `Passwords.HashPassword`: it takes the salt as an input instead of calling `bcrypt.gensalt()`, and it states only that the hash comes from at most 72 pre-hashed bytes. What the hash verifies against is stated by `HashThenVerify`.

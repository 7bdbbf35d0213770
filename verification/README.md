# Session and onboarding state of the marathon-training companion

This project models the client-side state logic of a marathon-training web
application. It covers four parts:

- the **session store** (`AuthStore`): login, logout, session check and token
  refresh over the store's fields and the `auth_token` entry in local storage;
- the **onboarding/profile store** (`UserStore`): merging wizard progress,
  submitting it, creating the profile, and resetting or loading demo data;
- the **onboarding wizard's handlers** (`OnboardingPage`): the page's own step
  counter, clamped to steps 1..8, whose every change is written to the store;
- the **route guard** of the `useAuth` hook (`AuthHooks`): which page a visitor
  is redirected to, if any.

The stores are classes. Their fields are the store state, and each store
action is a method that changes them. Every method is specified against a
pure function of the old state and the action's inputs (`LoggedOut`,
`Refreshed`, `MergeOnboarding`, `Submitted`, ...). Lemmas prove properties of
those functions: logout is idempotent, a merge is idempotent, submitting
twice gives the same state, persisting and reloading round-trips, no
sequence of button presses leaves steps 1..8, and the store follows the
page's step.

The outside world comes in as parameters:

- demo mode is a constant field of each store;
- the clock is a parameter: `now` in epoch milliseconds, `nowIso` as an ISO string;
- signed token strings are parameters, and the JWT verifier's verdict is a `JwtCheck`;
- every HTTP call arrives as an `HttpOutcome`: an ok reply with its body, a
  non-ok reply, or a thrown value;
- the `auth_token` entry either parses as a token or is `Garbled`. This makes
  the `JSON.parse` outcome a property of the stored text, so the re-read in
  `refreshToken` sees the same result as the read in `checkAuth`.

Behaviours of the code a reader might not expect, which the model follows:

- `checkAuth` with no stored token does not log out. It only clears
  `isLoading`, so a persisted `isAuthenticated = true` survives
  (src/stores/authStore.ts:134-137).
- In demo mode `refreshToken` sets the expiry to *now* plus one hour, not to
  the old expiry plus one hour (src/stores/authStore.ts:191-194). It moves
  only the stored `expiresAt`: the access token is copied unchanged, so its
  own `exp` claim, fixed one hour after signing (src/stores/authStore.ts:28),
  stays in the past. The next `checkAuth` then passes the expiry test but
  fails verification and logs out (src/stores/authStore.ts:148-151).
- `updateOnboarding` takes `totalSteps` from the patch when it is truthy, so
  the step count is not fixed at 8 (src/stores/userStore.ts:120).
- Any call that passes `isComplete: true` marks the data complete, whatever
  the current step (src/stores/userStore.ts:121).
- A failed plan-generation notification sets `error`, but the profile that
  was already stored stays (src/stores/userStore.ts:159-181). A non-ok
  notification response is not treated as a failure.

## Model

| member | source | states |
|---|---|---|
| `AuthStore.CreateToken` | src/stores/authStore.ts:21-45 | the token keeps the signed access and refresh strings and expires exactly 3,600,000 ms after issue |
| `Common.ErrorMessage` | src/stores/authStore.ts:112-117 | a caught `Error` contributes its own message; any other thrown value gives the caller's fallback text |
| `AuthStore.Expired` | src/stores/authStore.ts:141-142 | a token is expired only strictly after `expiresAt`: not at that millisecond, and from the next one on |
| `AuthStore.FreshTokenLifetime` | src/stores/authStore.ts:40-44 | a fresh token counts as expired exactly when more than one hour has passed; it still passes `checkAuth`'s expiry test at issue time plus one hour |
| `AuthStore.VerifyToken` | src/stores/authStore.ts:47-54 | verification gives a boolean and never an exception; it is true iff the library accepted the token, and any rejection gives false |
| `AuthStore.DemoUser` | src/stores/authStore.ts:72-78 | the synthetic user has id `demo-user-1`, name `Demo User`, the given e-mail and the current time as both timestamps |
| `AuthStore.LoggedOut` | src/stores/authStore.ts:120-127 | after logout there is no stored token, no user, no error and `isAuthenticated` is false; `isLoading` is as before |
| `AuthStore.LogoutIdempotent` | src/stores/authStore.ts:120-127 | logging out twice gives the same state as logging out once |
| `AuthStore.LogoutForgetsHistory` | src/stores/authStore.ts:120-127 | any two states with the same `isLoading` log out to the same state |
| `AuthStore.Refreshed` | src/stores/authStore.ts:179-217 | refresh never touches `isLoading`. It either logs out or keeps user, flag and error. A missing or unparseable token logs out. In demo mode the token keeps its strings and gets expiry `now` + 1 h. In real mode an ok reply replaces the token, and a non-ok reply or a thrown error logs out |
| `AuthStore.DemoRefreshKeepsSession` | src/stores/authStore.ts:189-197 | in demo mode a readable token is renewed and the session kept; the renewed token passes `checkAuth`'s expiry test until exactly `now` + 1 h |
| `AuthStore.Partialize` | src/stores/authStore.ts:226-229 | the persisted slice is exactly the user and the authenticated flag |
| `AuthStore.Rehydrate` | src/stores/authStore.ts:57-64 | a reloaded store is not loading and has no error; without a saved slice it starts logged out; with one, it carries exactly the saved user and flag |
| `AuthStore.PersistRoundTrip` | src/stores/authStore.ts:223-229 | persisting then reloading gives back the state iff it was not loading and had no error |
| `AuthStore.Store.constructor` | src/stores/authStore.ts:56-64 | the store starts in the rehydrated state beside the stored token; it is coherent (user present iff authenticated) whenever the saved slice is absent or itself coherent |
| `AuthStore.Store.Login` | src/stores/authStore.ts:66-118 | `isLoading` ends false. Demo: user is the demo user with the given e-mail, authenticated, no error, fresh token stored. Real ok: the reply's user and token, no error. Non-ok: error "Authentication failed". Thrown: the error's message or "Login failed". On both failures user, flag and token are kept. The user-iff-authenticated invariant is preserved |
| `AuthStore.Store.Logout` | src/stores/authStore.ts:120-127 | the new state is `LoggedOut` of the old one |
| `AuthStore.Store.RefreshToken` | src/stores/authStore.ts:179-217 | the new state is `Refreshed` of the old one; the invariant is preserved |
| `AuthStore.Store.CheckAuth` | src/stores/authStore.ts:129-177 | `isLoading` always ends false. No token: nothing else changes. Unparseable token: logout. Strictly expired token: refresh, not logout. Otherwise a failed verification logs out, and a verified token in demo mode restores the demo user (`demo@example.com`). In real mode a verified token changes nothing |
| `UserStore.MergeOnboarding` | src/stores/userStore.ts:113-124 | step: the patch's if non-zero, else the previous non-zero one, else 1. Step count: the patch's if non-zero, else the previous one, else 8. Both end non-zero. `isComplete` is true iff the patch passes `true`. `userId` and answers given in the patch override the previous ones, and the rest are kept |
| `UserStore.MergeOnboardingIdempotent` | src/stores/userStore.ts:113-124 | applying the same patch twice stores the same data as applying it once |
| `UserStore.StepThenCompletion` | src/stores/userStore.ts:119-121 | from no data, `{currentStep: s}` followed by `{isComplete: true}` gives step `s` of 8, complete |
| `UserStore.MergeProfile` | src/stores/userStore.ts:100-111 | given fields override, all others are kept, and `updatedAt` is always the current time |
| `UserStore.EmptyProfilePatchTouchesOnly` | src/stores/userStore.ts:103-108 | an empty patch changes only `updatedAt` |
| `UserStore.ReadyAfterMergeIff` | src/stores/userStore.ts:121-131 | after an update the submission guard holds iff the patch set `isComplete` to true, so it always holds after `{isComplete: true}` |
| `UserStore.ReadyToSubmit` | src/stores/userStore.ts:127-131 | the submission guard fails without data and, with data, holds exactly when it is marked complete |
| `UserStore.DemoProfile` | src/stores/userStore.ts:35-87 | the demo profile has id `profile-demo-1`, user `demo-user-1`, every section filled, the Oura ring connected iff demo mode, and both timestamps equal to load time |
| `UserStore.Submitted` | src/stores/userStore.ts:126-182 | guard fails: only `error` changes, to "Onboarding data incomplete". Guard passes: `isLoading` ends false and the onboarding data is kept. Demo: demo profile, complete, no error. Real ok: the reply's profile, complete, and an error iff the notification threw. Non-ok: error "Failed to submit onboarding data". Thrown: the error's message or "Submission failed". On both failures profile and completion are kept |
| `UserStore.SubmitIdempotent` | src/stores/userStore.ts:126-182 | submitting twice with the same outcomes leaves the same state as submitting once |
| `UserStore.Partialize` | src/stores/userStore.ts:211-215 | the persisted slice is exactly profile, onboarding data and completion flag |
| `UserStore.Rehydrate` | src/stores/userStore.ts:92-97 | a reloaded store is not loading, has no error, and carries exactly the saved slice (or the empty initial one) |
| `UserStore.PersistRoundTrip` | src/stores/userStore.ts:208-216 | persisting then reloading gives back the state iff it was not loading and had no error |
| `UserStore.Store.constructor` | src/stores/userStore.ts:89-98 | the store starts rehydrated, with the demo profile built at load time |
| `UserStore.Store.UpdateProfile` | src/stores/userStore.ts:100-111 | without a profile nothing changes; otherwise only the profile changes, to the merge |
| `UserStore.Store.UpdateOnboarding` | src/stores/userStore.ts:113-124 | only the onboarding data changes, to the merge with the previous data |
| `UserStore.Store.SubmitOnboarding` | src/stores/userStore.ts:126-182 | the new state is `Submitted` of the old one |
| `UserStore.Store.CompleteOnboarding` | src/stores/userStore.ts:184-186 | only the completion flag changes, to true |
| `UserStore.Store.ResetOnboarding` | src/stores/userStore.ts:188-194 | onboarding data, completion and error are cleared; profile and `isLoading` are kept; the submission guard then fails |
| `UserStore.Store.LoadDemoData` | src/stores/userStore.ts:199-206 | outside demo mode nothing changes; in demo mode only profile (the demo profile) and completion (true) change |
| `OnboardingPage.NextStep` | src/app/onboarding/page.tsx:57-63 | below step 8 the step rises by exactly one; at 8 or above it stays |
| `OnboardingPage.PreviousStep` | src/app/onboarding/page.tsx:65-71 | above step 1 the step falls by exactly one; at 1 or below it stays |
| `OnboardingPage.NavigationStaysInRange` | src/app/onboarding/page.tsx:57-71 | starting in 1..8, every sequence of Next/Previous presses ends in 1..8 |
| `OnboardingPage.NavigationMirrorsStore` | src/app/onboarding/page.tsx:57-71 | if store and page agree on the step, they agree after any sequence of presses. User id, answers and a non-zero step count are kept. Completion survives only a sequence that wrote nothing |
| `OnboardingPage.PrimaryAction` | src/app/onboarding/page.tsx:280-298 | the Next button is offered iff the step is below 8, otherwise Submit |
| `OnboardingPage.PreviousDisabled` | src/app/onboarding/page.tsx:271-277 | Previous is disabled iff the step is 1 |
| `OnboardingPage.ButtonsAgreeWithHandlers` | src/app/onboarding/page.tsx:270-300 | inside 1..8, Next is offered iff pressing it moves, Previous is enabled iff pressing it moves, and Submit appears only on step 8 |
| `OnboardingPage.InitialPatch` | src/app/onboarding/page.tsx:41-46 | merged into an empty store, the initial patch gives step 1 of 8, incomplete, the user's id, no answers |
| `OnboardingPage.Wizard.constructor` | src/app/onboarding/page.tsx:35-36 | the page starts at step 1, not submitting |
| `OnboardingPage.Wizard.InitEffect` | src/app/onboarding/page.tsx:39-48 | only an authenticated visitor with a user and no stored data gets data: step 1 of 8, incomplete, the user's id, no answers. Otherwise the store is unchanged |
| `OnboardingPage.Wizard.SyncStepEffect` | src/app/onboarding/page.tsx:51-55 | a non-zero stored step is copied into the page unclamped; otherwise the page step is kept |
| `OnboardingPage.Wizard.HandleNext` | src/app/onboarding/page.tsx:57-63 | the page step becomes `NextStep` of the old one. A move writes `{currentStep}` to the store, leaving it at the page's step and incomplete. No move, no write |
| `OnboardingPage.Wizard.HandlePrevious` | src/app/onboarding/page.tsx:65-71 | the page step becomes `PreviousStep` of the old one. A move writes `{currentStep}` to the store, leaving it at the page's step and incomplete. No move, no write |
| `OnboardingPage.Wizard.HandleSubmit` | src/app/onboarding/page.tsx:73-84 | the data is marked complete before submitting, so the guard holds. The store ends not loading, with the demo or replied profile in place on success. The page always navigates to the report and ends not submitting |
| `AuthHooks.RedirectTarget` | src/hooks/useAuth.ts:22-31 | no redirect while loading. A truthy `redirectTo` is the target for a visitor who is not authenticated. Otherwise `redirectIfFound` sends an authenticated visitor to `/dashboard`. In every other case there is no redirect |
| `AuthHooks.RequireAuthOptions` | src/hooks/useAuth.ts:45-47 | the protected-route preset has a truthy `redirectTo` of `/login` and no `redirectIfFound` |
| `AuthHooks.PublicRouteOptions` | src/hooks/useAuth.ts:50-52 | the public-route preset sets `redirectIfFound` and has no truthy `redirectTo` |
| `AuthHooks.RequireAuthRedirectsGuests` | src/hooks/useAuth.ts:45-47 | a protected route redirects exactly the visitors who are not authenticated (once loading has finished), to `/login` |
| `AuthHooks.PublicRouteRedirectsMembers` | src/hooks/useAuth.ts:50-52 | a public route redirects exactly the authenticated visitors (once loading has finished), to `/dashboard` |
| `AuthHooks.BothOptionsPrecedence` | src/hooks/useAuth.ts:24-30 | with both options set, a visitor who is not authenticated goes to `redirectTo` and an authenticated one to `/dashboard` |

## Left out

- JWT signing and verification (HS256 through the `jose` library) are not modelled: token strings are opaque parameters and the verifier's verdict is an input.
- AuthStore.DemoRefreshKeepsSession: the verifier's verdict is not tied to the access token's own `exp` claim, so the model does not show that a demo-renewed session does not survive the next `checkAuth`. The lemma promises only that the renewed `expiresAt` passes the expiry test until `now` + 1 h, not that the session stays valid that long.
- The HTTP endpoints are not modelled. The authentication, refresh, profile and notification calls are reduced to their outcome. The shape of the bodies is assumed: a user and a token, a token, a profile.
- Local storage is modelled as one field, and zustand's `persist` as the `Partialize`/`Rehydrate` pair. JSON serialisation is left out, and so are `setItem` failures and an empty-string entry, which the code treats as absent.
- `Date.now()` and `new Date().toISOString()` are parameters. Each action sees one `now`: the separate calls in `checkAuth` and `refreshToken` and the two timestamps of the demo user are taken as one value. The 1500 ms demo delay is not modelled.
- UserStore.DemoProfile: `createdAt` and `updatedAt` are one load-time value `loadedAt`, while the source reads the clock once for each (src/stores/userStore.ts:85-86), so the two may differ there by a millisecond.
- The `console.error` logging in the catch blocks of `checkAuth`, `refreshToken` and `handleSubmit` is not modelled (src/stores/authStore.ts:172, 214; src/app/onboarding/page.tsx:80): it writes to the console and changes no state.
- Asynchronous interleaving is not modelled: every action runs to completion before the next, so overlapping calls (for example a logout during a login) are out of scope.
- The plain setters `setUser`, `setLoading` and `setError` of both stores, and the selector hooks, are not modelled: they assign one field and hold no logic.
- The questionnaire sections are opaque values, and the demo profile's fixture contents are not modelled beyond every section being present. The type declarations in src/types are not part of this model: the fields of the onboarding data are reconstructed from their uses.
- The first effect of `useAuth` (calling `checkAuth` on mount) and `router.push` are not modelled; the redirect decision is.
- Rendering is not modelled: JSX, step titles, the progress percentage (floating point), the submit button's `isSubmitting` disabled state and the loading overlay. Also out are the dashboard, report and login pages, the login form schema (a validation library), and src/lib/demoData.ts (static fixtures).
- The `catch` branch of `handleSubmit` is not modelled: `submitOnboarding` catches every failure itself, so that branch is never reached.

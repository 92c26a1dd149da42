# medipt-mvp-frontend: authentication, routing and dashboard state, in Dafny

This project models the client-side core of the Medipt front end, a React/Redux
application for healthcare organisations, their caregivers and patients:

- the **auth slice**: the session record in the Redux store, its persistence in
  `localStorage`, its reducers and the storage effects of its thunks
  (`AuthSlice`);
- the **token-refresh coordinator** of the authenticated HTTP client. On a 401
  response it starts exactly one refresh call, parks every other failing
  caller behind it, and then either replays or rejects them all (`BaseApi`);
- **`handleApiError`**: the toast messages an API error produces, in order
  (`ErrorHandler`);
- the **organisation dashboard** and **caregiver** slices (`OrganizationSlice`,
  `CaregiverSlice`);
- the **route guards** `ProtectedRoute`, `PublicRoute` and `SignupRoute`, the
  **route tables** and their lookups (`Routes`), and the **sidebar navigation**
  tables with their title and access lookups (`Navigation`);
- the role and expiry logic of the **`useAuth`** hook (`UseAuth`);
- the **zod form schemas** for authentication and caregiver invitations
  (`ZodRules`, `AuthSchema`, `CaregiverSchema`);
- `capitalizeFirstLetter` (`HelperFunctions`).

The store slices are classes whose fields the reducers assign in place. The
organisation and caregiver stores each have a pure reducer (`Reduce`) and
functions for their thunk runs (`RunFetch`, and `RunInvite` for invitations)
beside them, and each method is proved equal to those functions. The auth
store has no reducer function: each of its methods states the new state and
storage field by field in its `ensures`. The coordinator is a class whose
state is the module-level `isRefreshing` flag and `failedQueue`. Ghost fields
record which outcome each parked caller received, every request sent again,
every refresh POST and every redirect. Its invariant says at most one refresh
is ever in flight. Pure code (schemas, tables, guards, predicates) is written
as functions, with lemmas about them.

`Common` holds the shared JavaScript vocabulary: `null`/`undefined` as
`Option`, string truthiness (`Truthy`, `OrElse` for `||`), ASCII character
classes and `toUpperCase`.

## Model

| member | source | states |
|---|---|---|
| HelperFunctions.CapitalizeFirstLetter | src/utils/helper-funtions.ts:1-3 | same length, empty iff the input is empty; the first character is upper-cased and the rest is kept |
| HelperFunctions.CapitalizeIdempotent | src/utils/helper-funtions.ts:1-3 | capitalising twice equals capitalising once |
| HelperFunctions.CapitalizeChangesOnlyALowerFirst | src/utils/helper-funtions.ts:1-3 | characters from index 1 on never change; the string is unchanged iff it is empty or does not start with a lower-case letter |
| AuthSlice.ReadStoredUser | src/features/auth/authSlice.tsx:69-78 | a user is read iff the stored entry is truthy and JSON.parse gives a truthy value: the stored user, or a user with no fields for other truthy JSON; an entry JSON.parse rejects is removed, and nothing else in storage changes |
| AuthSlice.TokenOrNull | src/features/auth/authSlice.tsx:82-83 | `token \|\| null`: a stored empty token reads as no token |
| AuthSlice.InitialAuthState | src/features/auth/authSlice.tsx:64-90 | authenticated iff a truthy access token is stored and the stored user parses to a truthy value; user and tokens come from storage; every other field starts empty; storage is exactly what reading the user leaves, which loses only an unparseable user entry |
| AuthSlice.RestoreAuthBody | src/features/auth/authSlice.tsx:278-317 | fulfils iff an access token is stored and the stored user parses to a truthy value, with the same session `getInitialAuthState` builds; otherwise rejects with "No auth data found in localStorage" |
| AuthSlice.StoredNonUserJson | src/features/auth/authSlice.tsx:69-78 | a stored user entry that is valid JSON but not a user is kept; `null` reads as no user and `restoreAuth` rejects; a truthy value such as `{}` with a token gives an authenticated session and `restoreAuth` fulfils |
| AuthSlice.CatchToasts | src/features/auth/authSlice.tsx:104-108 | a thunk that succeeds shows no toast; one whose service throws shows exactly the toasts of `handleApiError` for that error |
| AuthSlice.MergeUser | src/features/auth/authSlice.tsx:351-356 | `{...user, ...patch}`: every field the patch carries wins, all others are kept, and the profile keys are the union |
| AuthSlice.MergeUserIdempotent | src/features/auth/authSlice.tsx:351-356 | applying the same `updateUser` payload twice equals applying it once |
| AuthSlice.ClearThenRestore | src/features/auth/authSlice.tsx:339-350 | once the three session keys are removed, a reload is unauthenticated with no user or token, and `restoreAuth` rejects |
| AuthSlice.AuthStore.constructor | src/features/auth/authSlice.tsx:64-90 | the store starts from `getInitialAuthState()` and its storage effect |
| AuthSlice.AuthStore.ClearError | src/features/auth/authSlice.tsx:326-328 | only `error` is cleared |
| AuthSlice.AuthStore.SetTokens | src/features/auth/authSlice.tsx:329-338 | both tokens go to the state and to storage, and the state becomes authenticated; a reload reads the tokens back |
| AuthSlice.AuthStore.ClearAuthState | src/features/auth/authSlice.tsx:339-350 | user, tokens, error, loading and expiry are reset and the three keys removed; `signedupUser` and `resetEmail` are kept; a reload is unauthenticated and `restoreAuth` rejects |
| AuthSlice.AuthStore.UpdateUser | src/features/auth/authSlice.tsx:351-356 | without a user nothing changes; otherwise the merged user is stored and persisted, and a reload reads it back |
| AuthSlice.AuthStore.ClearSignedupUser | src/features/auth/authSlice.tsx:357-359 | only `signedupUser` is cleared |
| AuthSlice.AuthStore.RestoreAuth | src/features/auth/authSlice.tsx:364-380 | fulfilled iff token and user are stored, giving the stored session; otherwise user and tokens are cleared and the state is unauthenticated; loading ends either way |
| AuthSlice.AuthStore.Login | src/features/auth/authSlice.tsx:131-155 | fulfils iff the service answers; on success the three keys are written and the same values copied into the state, and a reload gives that user; on failure user and tokens are cleared in the state only, the error is "Login failed", and the toasts are `handleApiError`'s |
| AuthSlice.AuthStore.RefreshToken | src/features/auth/authSlice.tsx:193-220 | the service is called iff the state holds a truthy refresh token, else the thunk rejects with no toast; success returns the new tokens and writes both to storage; failure removes the three keys, rejects with "Token refresh failed" and shows `handleApiError`'s toasts; the Redux state never changes |
| AuthSlice.AuthStore.Logout | src/features/auth/authSlice.tsx:225-238 | the three keys are removed whether or not the call fails, and the state is rebuilt from storage, which leaves it unauthenticated |
| AuthSlice.AuthStore.OrganizationSignup | src/features/auth/authSlice.tsx:97-109 | success records the signed-up organisation and nothing else; failure records "Signup failed" and shows `handleApiError`'s toasts; storage is untouched |
| AuthSlice.AuthStore.VerifyAccount | src/features/auth/authSlice.tsx:114-126 | fulfils iff the service answers, with the service's message when it is truthy and otherwise a non-empty default; success forgets the signed-up organisation; failure records "Account verification failed" and shows `handleApiError`'s toasts |
| AuthSlice.AuthStore.GetCurrentUser | src/features/auth/authSlice.tsx:259-272 | fulfils with the fetched user and persists it under "user"; a failure rejects with "Failed to fetch user data", leaves storage alone and shows `handleApiError`'s toasts; the state does not change |
| AuthSlice.AuthStore.Replace | src/features/auth/authSlice.tsx:432-433 | a case reducer that returns a new state replaces every field of the slice; storage is untouched |
| BaseApi.WithBearer | src/api/base_api.tsx:57-71 | with a truthy token and headers, `Authorization` is `Bearer <token>` and every other header is kept; otherwise the headers are returned unchanged |
| BaseApi.Replay | src/api/base_api.tsx:90-103 | a resolved caller's replay keeps its headers and `_retry`; the store's token, if any, wins over the token the caller was resolved with |
| BaseApi.ReplaysInOrder | src/api/base_api.tsx:41-51 | the replays of a queue are one per parked caller, in queue order |
| BaseApi.SettleAllOutcomes | src/api/base_api.tsx:41-51 | settling a queue records the same outcome for exactly its callers and leaves every other outcome alone |
| BaseApi.RefreshCoordinator.constructor | src/api/base_api.tsx:32-36 | no refresh is running and the queue is empty |
| BaseApi.RefreshCoordinator.AttachToken | src/api/base_api.tsx:57-71 | the request interceptor sets the headers to `WithBearer` of the store's access token |
| BaseApi.RefreshCoordinator.SetBearer | src/api/base_api.tsx:94-97 | a request with headers gets `Authorization: Bearer <token>` and keeps its other headers and `_retry`; a request without headers is unchanged |
| BaseApi.RefreshCoordinator.Send | src/api/base_api.tsx:57-71 | a sent request goes through the interceptor and is recorded as sent |
| BaseApi.RefreshCoordinator.SettleOne | src/api/base_api.tsx:41-51 | one parked caller is rejected with the error, or resolved with the token and replayed once |
| BaseApi.RefreshCoordinator.ProcessQueue | src/api/base_api.tsx:41-51 | each parked caller is settled exactly once with the same outcome; on success each request is replayed in queue order, on error none is and headers are untouched; the queue ends empty |
| BaseApi.RefreshCoordinator.OnResponseError | src/api/base_api.tsx:77-124 | a non-401 or already-retried error propagates and nothing changes; during a refresh exactly one caller is parked; otherwise `_retry` is set, and either no refresh token clears the session and redirects to /login, or exactly one refresh POST is issued with the flag up |
| BaseApi.RefreshCoordinator.UnauthorizedBurst | src/api/base_api.tsx:77-124 | for a burst of 401s, the first starts the only POST and every later one is parked in arrival order |
| BaseApi.RefreshCoordinator.RefreshSucceeded | src/api/base_api.tsx:126-144 | both tokens are stored by one `setTokens`; every parked caller is resolved with the new token and replayed in order; the flag drops; the original request is replayed last, still marked `_retry` |
| BaseApi.RefreshCoordinator.Resume | src/api/base_api.tsx:136-144 | the original request gets the new bearer; the queue is processed; the refresh ends; the original is replayed |
| BaseApi.RefreshCoordinator.EndRefresh | src/api/base_api.tsx:142 | the flag drops and the refresh in flight counts as settled |
| BaseApi.RefreshCoordinator.RefreshFailed | src/api/base_api.tsx:145-152 | every parked caller is rejected with the refresh error and nothing is replayed; the flag drops; the session is cleared; one redirect to /login; the starter is rejected |
| ErrorHandler.Lookup | src/api/error-handler.ts:14-38 | `data[key]` is the value of the last field named `key`, as JSON.parse keeps the last of repeated keys |
| ErrorHandler.HandleApiError | src/api/error-handler.ts:4-69 | the toasts equal `Messages`; without object data in a response exactly one toast is shown: a non-empty `Error` message, otherwise the default message |
| ErrorHandler.Messages | src/api/error-handler.ts:4-69 | without object data in a response the handler shows exactly one non-empty message; with a `detail` key, exactly one |
| ErrorHandler.DataToasts | src/api/error-handler.ts:8-55 | `detail` wins alone; else one toast per element of an `errors` array, else of a `non_field_errors` array; else `"key: msg"` per element of each array-valued key, key by key |
| ErrorHandler.ToastEach | src/api/error-handler.ts:22-29 | one toast per element, `prefix + String(element)`, appended in order |
| ErrorHandler.FieldMessagesAppend | src/api/error-handler.ts:42-53 | the field-level toasts grow key by key |
| ErrorHandler.FieldMessagesConcat | src/api/error-handler.ts:42-53 | the toasts of two runs of keys are those of the first followed by those of the second |
| ErrorHandler.NonArrayKeysAreSilent | src/api/error-handler.ts:42-53 | keys whose value is not an array show nothing |
| ErrorHandler.FieldMessageOrigin | src/api/error-handler.ts:42-53 | every field-level toast is `"key: msg"` for an array-valued key and one of its elements |
| OrganizationSlice.FetchStatistics | src/features/organization/organizationSlice.tsx:49-67 | success fulfils with the service's statistics and shows no toast; failure rejects with the `Error`'s message, or "Error fetching dashboard data" for a non-`Error`, after the handler's toasts |
| OrganizationSlice.OrganizationStore.constructor | src/features/organization/organizationSlice.tsx:39-44 | the slice starts at `initialState` |
| OrganizationSlice.OrganizationStore.Dispatch | src/features/organization/organizationSlice.tsx:125-154 | in-place case reducers equal the reducer function |
| OrganizationSlice.OrganizationStore.FetchDashboardStatistics | src/features/organization/organizationSlice.tsx:49-67 | a thunk run is pending then settled, and the toasts shown are the handler's |
| OrganizationSlice.Reduce | src/features/organization/organizationSlice.tsx:125-154 | loading is raised exactly by the pending case (kept by `clearError`); the statistics change only on reset or a successful fetch; an error remains iff the fetch was rejected |
| OrganizationSlice.ResetAndClear | src/features/organization/organizationSlice.tsx:125-131 | reset gives `initialState` from any state; `clearError` clears only the error |
| OrganizationSlice.SuccessfulFetch | src/features/organization/organizationSlice.tsx:136-147 | after a successful fetch the statistics are stored, loading is false and there is no error |
| OrganizationSlice.FailedFetch | src/features/organization/organizationSlice.tsx:148-154 | a failed fetch keeps the earlier statistics and always leaves a non-empty error; an empty `Error` message falls back to "Failed to fetch dashboard data" |
| CaregiverSlice.FetchAllCaregivers | src/features/caregiver/caregiverSlice.ts:83-103 | success copies results, count, next and previous from the service; failure rejects with "Error fetching caregivers" after the handler's toasts |
| CaregiverSlice.SendInvitation | src/features/caregiver/caregiverSlice.ts:123-134 | success fulfils with the service's answer; failure rejects with "Failed to invite caregiver" after the handler's toasts |
| CaregiverSlice.CaregiverStore.constructor | src/features/caregiver/caregiverSlice.ts:33-46 | the slice starts at `initialState` |
| CaregiverSlice.CaregiverStore.Dispatch | src/features/caregiver/caregiverSlice.ts:206-251 | in-place case reducers equal the reducer function |
| CaregiverSlice.CaregiverStore.FetchAll | src/features/caregiver/caregiverSlice.ts:83-103 | a fetch run is pending then settled, and the toasts are the handler's |
| CaregiverSlice.CaregiverStore.Invite | src/features/caregiver/caregiverSlice.ts:123-134 | an invitation run is pending then settled, and the toasts are the handler's |
| CaregiverSlice.Reduce | src/features/caregiver/caregiverSlice.ts:206-251 | loading is raised exactly by the two pending cases; list and pagination change only on a successful fetch; `hasFetched` becomes true only there and stays true; the error changes only in a rejected case and is never cleared |
| CaregiverSlice.FetchPendingOnlyLoads | src/features/caregiver/caregiverSlice.ts:235-237 | fetch pending only sets `loading` |
| CaregiverSlice.SuccessfulFetch | src/features/caregiver/caregiverSlice.ts:238-244 | a successful fetch replaces the list and the pagination, ends loading and sets `hasFetched`, and keeps an earlier error |
| CaregiverSlice.FailedFetch | src/features/caregiver/caregiverSlice.ts:245-251 | a failed fetch keeps list, pagination and `hasFetched`, ends loading and records "Error fetching caregivers" |
| CaregiverSlice.RejectedFallbacks | src/features/caregiver/caregiverSlice.ts:206-251 | each rejected case uses a truthy payload, or falls back to its own message |
| CaregiverSlice.InviteRun | src/features/caregiver/caregiverSlice.ts:206-215 | an invitation run only toggles `loading` and on failure records "Failed to invite caregiver"; the list is untouched |
| Navigation.NavigationByRole | src/utils/navigation.tsx:309-320 | the caregiver and patient menus for those roles; the organisation menu for every other string |
| Navigation.FindByLink | src/utils/navigation.tsx:328-344 | nothing iff no item links to the path; otherwise the first item that does |
| Navigation.PageTitle | src/utils/navigation.tsx:328-332 | "Dashboard" for an unlisted path; otherwise the linked item's title, or "Dashboard" if that title is empty |
| Navigation.IsRouteAccessible | src/utils/navigation.tsx:340-344 | a path is accessible only if the role's menu lists it in an item that names the role |
| Navigation.UnlistedPathInaccessible | src/utils/navigation.tsx:340-344 | a path not in the role's menu is never accessible |
| Navigation.AccessibleIffListed | src/utils/navigation.tsx:340-344 | in a menu whose items all allow the role, a path is accessible iff it is listed |
| Navigation.KnownRolesReachTheirLinks | src/utils/navigation.tsx:54-344 | for Organization, Admin, Caregiver and Patient, a path is accessible iff it is in the role's menu |
| Navigation.OtherRolesReachNothing | src/utils/navigation.tsx:54-344 | any other role gets the organisation menu, which never lists it, so no path is accessible |
| Navigation.LogoutIsLast | src/utils/navigation.tsx:54-267 | every sidebar menu ends with "Logout" at "/logout" |
| Navigation.OrganizationLinksDistinct | src/utils/navigation.tsx:54-169 | the organisation menu's links are pairwise distinct |
| Navigation.CaregiverLinksDistinct | src/utils/navigation.tsx:175-218 | the caregiver menu's links are pairwise distinct |
| Navigation.PatientLinksDistinct | src/utils/navigation.tsx:224-267 | the patient menu's links are pairwise distinct |
| Navigation.SettingsLinksDistinct | src/utils/navigation.tsx:273-302 | the settings menu's links are pairwise distinct |
| Navigation.FindOwnLink | src/utils/navigation.tsx:328-332 | with distinct links, finding an item's own link gives that item |
| Navigation.TitleOfListedPath | src/utils/navigation.tsx:328-332 | on a menu link the page title is that item's own title |
| Routes.RoutesFor | src/routes/routes.ts:188-190 | the routes whose `allowedRoles` include the role, each as often as in the table and in table order |
| Routes.SidebarItemsFor | src/routes/routes.ts:171-175 | the routes shown in the sidebar whose roles include the role, each as often as in the table and in table order |
| Routes.FindByPath | src/routes/routes.ts:180-197 | nothing iff no route has the path; otherwise the first route that does |
| Routes.RouteByPathIn | src/routes/routes.ts:195-197 | auth routes are searched before dashboard routes |
| Routes.SomeMatch | src/routes/routes.ts:202-211 | true iff some route matches the path exactly or by the "/"+path prefix |
| Routes.IsAuthRoute | src/routes/routes.ts:202-204 | true iff some auth route matches the path exactly or by prefix |
| Routes.IsProtectedRouteIn | src/routes/routes.ts:209-211 | true iff some dashboard route matches the path exactly or by prefix |
| Routes.CanAccessRouteIn | src/routes/routes.ts:180-183 | access is granted only if some route has exactly that path and lists the role |
| Routes.FindAppend | src/routes/routes.ts:195-197 | a search over two joined tables searches the first table first |
| Routes.SidebarWithinRoutes | src/routes/routes.ts:171-190 | the sidebar items are a subsequence of the role's routes, in table order |
| Routes.CanAccessCases | src/routes/routes.ts:180-183 | access is denied when no route has the path; otherwise it is granted iff the first such route lists the role |
| Routes.PrefixWithoutBoundary | src/routes/routes.ts:202-204 | the prefix test has no segment boundary: "/signup-x" counts as an auth route |
| Routes.ConcreteResetLinkIsNotAuth | src/routes/routes.ts:43 | a concrete reset-password link does not match the literal ":uidb64/:token" pattern |
| Routes.EmptyDashboard | src/routes/routes.ts:77-166 | with the shipped (empty) dashboard table, nothing is accessible or protected and no role has routes or sidebar items |
| ProtectedRoute.Guard | src/routes/ProtectedRoute.tsx:11-26 | unauthenticated redirects to /auth/login; /unauthorized iff authenticated, roles are given, and the user has a truthy role that is not listed; never the loader |
| ProtectedRoute.ChildrenCases | src/routes/ProtectedRoute.tsx:21-25 | an authenticated session reaches the children iff no roles are given, the user or its role is missing, or the role is listed |
| ProtectedRoute.UnauthenticatedIgnoresRoles | src/routes/ProtectedRoute.tsx:17-19 | without authentication the role list makes no difference |
| ProtectedRoute.HasTruthyRole | src/routes/ProtectedRoute.tsx:21 | `user?.role` is truthy iff there is a user with a non-empty role |
| PublicRoute.Decide | src/routes/PublicRoute.tsx:31-63 | loader iff loading on a first render; otherwise redirect to /organization/home iff there is a user, else the children |
| PublicRoute.PublicRouteInstance.constructor | src/routes/PublicRoute.tsx:31-63 | the mount ref starts false |
| PublicRoute.PublicRouteInstance.Render | src/routes/PublicRoute.tsx:45-60 | a render returns `Decide` of the ref before it, and the ref is true afterwards |
| PublicRoute.PublicRouteInstance.RenderAll | src/routes/PublicRoute.tsx:31-63 | a run of renders of one instance returns exactly `Outputs` from the ref's value before the run; the ref is true after a non-empty run |
| PublicRoute.Outputs | src/routes/PublicRoute.tsx:31-63 | one output per render; the first is decided with the ref's starting value and every later one as mounted |
| PublicRoute.MountedShowsNoLoader | src/routes/PublicRoute.tsx:45-53 | once mounted, an instance never shows the loader |
| PublicRoute.LoaderAtMostOnce | src/routes/PublicRoute.tsx:45-53 | an instance shows the loader at most once, and only on its first render |
| PublicRoute.NoLoaderAt | src/routes/PublicRoute.tsx:45-53 | a run with no loaders has no loader at any position |
| SignupRoute.Guard | src/routes/SignUpRoute.tsx:9-24 | loader while loading; redirect to the signup page without a signed-up organisation; children iff not loading and one is present |
| UseAuth.RefreshSchedule | src/hooks/useAuth.tsx:229-246 | no timer iff not authenticated or no (or zero) expiry; a timer's delay is positive and ends five minutes before expiry |
| UseAuth.HasRole | src/hooks/useAuth.tsx:188-194 | a role check passes only with a user |
| UseAuth.HasAnyRole | src/hooks/useAuth.tsx:198-204 | passes only with a user and a non-empty role list |
| UseAuth.IsTokenExpired | src/hooks/useAuth.tsx:208-212 | a token with more than five minutes left is not expired; one past its expiry is |
| UseAuth.ShouldAutoRefresh | src/hooks/useAuth.tsx:217-224 | auto-refresh fires only for an authenticated session with a truthy refresh token |
| UseAuth.HasRoleIsSingletonAnyRole | src/hooks/useAuth.tsx:188-203 | `hasRole(r)` iff `hasAnyRole([r])` |
| UseAuth.NoUserNoRole | src/hooks/useAuth.tsx:188-203 | without a user no role check passes |
| UseAuth.ExpiryIsMonotone | src/hooks/useAuth.tsx:208-212 | once expired, a token stays expired |
| UseAuth.ImmediateIffExpired | src/hooks/useAuth.tsx:208-246 | with a set expiry, the refresh is immediate iff the token counts as expired, and a timer fires exactly when it starts to count as expired |
| UseAuth.UnsetExpiryAlwaysRefreshes | src/hooks/useAuth.tsx:208-246 | with no expiry set, the token is always expired, no timer is set, and auto-refresh fires iff authenticated with a truthy refresh token |
| UseAuth.HandleLogout | src/hooks/useAuth.tsx:64-73 | logout removes the session keys, leaves the state unauthenticated, and navigates to /login whether or not the API call fails |
| AuthSchema.PasswordIssues | src/schemas/auth/auth-schema.ts:10-14 | no issue iff the password is strong; each message is reported iff its own check fails, always at the given field |
| AuthSchema.ParseOrganizationSignup | src/schemas/auth/auth-schema.ts:7-21 | accepted iff name ≥ 2, valid email, strong password and acronym of 2..10; the parsed acronym is upper-cased |
| AuthSchema.ParseLogin | src/schemas/auth/auth-schema.ts:26-30 | accepted iff the email is valid and the password non-empty; the value passes through |
| AuthSchema.ParseForgotPassword | src/schemas/auth/auth-schema.ts:35-37 | accepted iff the email is valid; otherwise exactly the "Invalid email address" issue |
| AuthSchema.ParseSetNewPassword | src/schemas/auth/auth-schema.ts:42-53 | accepted iff the new password is strong and equals the confirmation |
| AuthSchema.ParseVerifyAccount | src/schemas/auth/auth-schema.ts:58-60 | accepted iff the token is non-empty |
| AuthSchema.ParseChangePassword | src/schemas/auth/auth-schema.ts:65-76 | accepted iff the current password is non-empty, the new one is strong, and the two new ones are equal |
| AuthSchema.SetNewPasswordMismatch | src/schemas/auth/auth-schema.ts:50-53 | the mismatch is reported at `confirm_password` iff the passwords differ, even when the password is weak; issues only name the two fields |
| AuthSchema.ChangePasswordMismatch | src/schemas/auth/auth-schema.ts:65-76 | the mismatch is reported at `confirm_new_password` iff the new passwords differ; a missing current password is reported on its own field iff it is empty |
| ZodRules.Check | src/schemas/auth/auth-schema.ts:12-14 | a `.regex`/`.refine` check reports nothing iff it holds, else exactly one issue with its own path and message |
| ZodRules.Parse | src/schemas/auth/auth-schema.ts:7-21 | `safeParse` succeeds iff no issue was collected, with the value; otherwise it fails with exactly the issues |
| AuthSchema.ParsedAcronymIsStable | src/schemas/auth/auth-schema.ts:15-18 | parsing an accepted signup again gives the same value |
| CaregiverSchema.ParseInviteCaregiver | src/schemas/caregiver.ts:4-8 | accepted iff the email is valid and the role non-empty; an empty role is reported at `role` |
| CaregiverSchema.ParseAcceptInvitation | src/schemas/caregiver.ts:12-28 | accepted iff names are 1..100, passwords 8..128, and the two passwords are equal |
| CaregiverSchema.MismatchReported | src/schemas/caregiver.ts:25-28 | the mismatch is reported at `password_confirmation` iff the passwords differ, whatever else fails |

## Left out

- HTTP itself (axios, timeouts, base URLs, the public instance, the service wrappers): each service call is a parameter, its successful answer or what it threw.
- `window.location.href` assignments are recorded as a ghost list of redirects; page loads are not modelled.
- Promise scheduling: a parked caller's `.then` runs as a microtask after `processQueue` returns. The model replays those callers inside `ProcessQueue`, in queue order and before the original request. The relative order of the replays is the same.
- `createAsyncThunk` mechanics (action types, `unwrap`, abort signals): each thunk run is its pending case, its body, then its fulfilled or rejected case, in one method.
- `for...in` ordering: object fields are visited in the order given in `Value.Obj`. JavaScript's rule of integer-like keys first is not modelled.
- Numbers in API error data are integers; floating-point rendering by `String(n)` is not modelled.
- Toast ids (`Date.now()`), `console.log`/`console.error`, and the 500 ms delay before `fetchAllCaregiversInOrganization` calls its service (src/features/caregiver/caregiverSlice.ts:89): not modelled.
- ZodRules.Email: zod's email pattern is not modelled; it is a predicate `isEmail` the caller supplies.
- zod measures string length in UTF-16 code units; the model counts characters.
- Common.UpperString: `toUpperCase` is modelled for ASCII letters only.
- Icons, lazy page components and `children` of navigation items: left out (presentation only).
- `formatNumber` and `convertToDate` in the helper file: not part of this model (formatting with `Intl`/`Date`).
- The `forgotPassword`, `setNewPassword` and `changePassword` thunks have no case reducers and no storage effects. Their bodies only call a service and show toasts, so they are not modelled separately.
- The `useAuth` effects and timers: `UseAuth.RefreshSchedule` states what the periodic effect schedules. `setTimeout` and the cleanup are not modelled. The remaining `handle*` callbacks (`handleLogin`, `handleSignup`, `handleRefreshToken`, ...) only dispatch a thunk and navigate, and are not modelled.
- src/routes/routeConfig.ts is entirely commented out, and only its twin in routes.ts is modelled. The dashboard table in routes.ts is empty as shipped; the lookups are modelled for any table.
- Redux selectors and React rendering beyond the guard decisions are not modelled.
- AuthSlice.AuthStore.SetTokens: sets `isAuthenticated` even when there is no user, as the code does; the session invariant "authenticated ⇒ user present" is therefore not claimed.
- AuthSlice.AuthStore.Login: a failed login clears the state but not `localStorage`, as the code does.
- AuthSlice.AuthStore.RefreshToken: the slice has no case reducer for this thunk, so the state keeps the old tokens while storage gets the new ones.
- AuthSlice.AuthStore.Valid: no reducer sets `tokenExpiry`, so it is always `null` and `isTokenExpired` is always true.
- CaregiverSlice.SuccessfulFetch: the fulfilled case does not clear `error`, as the code does.
- AuthSlice.NoFields: a stored user that JSON.parse reads as some other truthy value (`{}`, `1`, `"x"`) becomes a user whose fields are all empty. In the code its `role` is `undefined`, so the model differs only for `hasRole("")` and for `hasAnyRole` with `""` in the list.
- AuthSlice.AuthStore.Login: a login response whose `user` is `null` is not modelled; the response always carries a user.
- AuthSlice.RestoreAuthBody: the outer `catch` of `restoreAuth` (authSlice.tsx:313-316) is only reached when `localStorage` itself throws. Storage access cannot fail in the model, so that path, its toasts and "Failed to restore auth" are not modelled.
- ErrorHandler.DataToasts: `Value.Obj` may repeat a key, and the field loop then visits every occurrence. JSON.parse keeps one entry per key, so such values do not arise from a response body.
- UseAuth.RefreshSchedule: `setTimeout` fires at once for a delay above 2^31 - 1 ms; that is not modelled. No reducer sets `tokenExpiry`, so no reachable session schedules a timer.

# A church-administration web client: authorisation, navigation and input policy in Dafny

This project models the decision logic of the web client of a multi-tenant
church-administration service. Customers (`cliente`) own
churches, church administrators (`admin_igreja`) run one church, and a
`superadmin` manages customers. The model covers these parts:

- the route table and the protected-route guard that decide which page a
  visitor sees;
- the role-based home page every redirect uses;
- the two authentication hooks (`useAuth`, which the application mounts, and
  the unused `useSecureAuth`) as transition functions over an auth state;
- the trial-period arithmetic;
- the error classifier, log redaction and production log record;
- the input schemas and `sanitizeText`;
- the login page's own form check;
- the free-trial sign-up dialog;
- the in-memory lists of the superadmin panel and the customer dashboard.

Each module follows one source file, and every external call appears only as
its outcome:

- Supabase auth, table reads and RPCs become outcome datatypes passed in as
  parameters.
- Navigation is a returned path.
- The current time, the current date and the development/production switch
  are parameters.

Async handlers are modelled as atomic steps applied in sequence. The one
deferred step that matters is useAuth's profile fetch, scheduled with
`setTimeout`. It is its own step, so that a fetch landing after later events
can be expressed.

Modules:

- `Wrappers` (wrappers.dfy): `Option`
- `Text` (text.dfy): JavaScript string helpers: `\s`, `trim`, `toLowerCase`, `includes`, character deletion, digit stripping, subsequences
- `Profiles` (profiles.dfy): sessions, `usuarios` rows, roles, the role-home switch
- `Routes` (routes.dfy): src/App.tsx route table
- `RouteGuard` (route_guard.dfy): src/components/ProtectedRoute.tsx
- `Auth` (auth.dfy): src/hooks/useAuth.tsx
- `SecureAuth` (secure_auth.dfy): src/hooks/useSecureAuth.tsx
- `Trial` (trial.dfy): src/utils/trialExpiration.ts
- `ErrorHandler` (error_handler.dfy): src/utils/errorHandler.ts
- `InputValidation` (input_validation.dfy): src/utils/inputValidation.ts
- `Login` (login.dfy): src/pages/Login.tsx
- `FreeTrial` (free_trial.dfy): src/components/FreeTrialModal.tsx
- `Lists` (lists.dfy): `reduce`, `filter` and counting over record lists
- `SuperAdmin` (super_admin.dfy): src/pages/SuperAdmin.tsx
- `Dashboard` (dashboard.dfy): src/pages/Dashboard.tsx

Behaviours of the code that a reader might not expect, each stated by a
member of the model:

- **No per-church access check.** The server function
  `user_has_church_access` is declared among the database types
  (src/integrations/supabase/types.ts:203) but never called. The route
  `/church/:churchId` admits all three roles for every church id
  (`RouteGuard.ChurchIdIgnored`).
- **Sign-out order.** `signOut` clears user, profile and session only after
  the provider call returns, and changes nothing when that call throws
  (`Auth.SignOut`).
- **Missing profile.** A missing `usuarios` row only produces a notice; the
  session stays in place (`Auth.FetchUserProfile`).
- **Inactive profile in useAuth.** useAuth stores inactive profiles as they
  are, and only the route guard turns them away (`Auth.FetchUserProfile`,
  `RouteGuard.InactiveNeverAdmitted`). useSecureAuth does filter them
  (`SecureAuth.RunKeepsProfileActive`). The login page redirects a signed-in
  visitor without looking at `ativo`, so an inactive user bounces between
  `/login` and their role home (`Login.InactiveUserBounces`).
- **Unknown role.** The role switch is written three times: useAuth and the
  login page send an unknown role to `/`, and the guard sends it to `/login`
  (`Profiles.RoleHomeFallbackOnlyForUnknown`).
- **Church administrator without a church.** An `admin_igreja` profile
  without `igreja_id` is sent to `/dashboard`. That page admits only
  `cliente`, so the guard there redirects it to `/dashboard` again
  (`RouteGuard.AdminWithoutChurchLoops`). For every other known role, one
  redirect reaches a page the role may see (`RouteGuard.RoleHomeAdmitted`,
  `RouteGuard.RedirectSettles`).
- **A deferred profile fetch outlives sign-out.** A profile fetch scheduled
  by a sign-in that lands after a sign-out event stores the profile next to
  no user and redirects the signed-out visitor to the role home
  (`Auth.LateProfileOutlivesSignOut`).

## Model

| member | source | states |
|---|---|---|
| Profiles.ParseRole | src/integrations/supabase/types.ts:213 | a role string is one of the three enumeration values or is unrecognised, and parsing loses nothing |
| Profiles.ParseRoleName | src/integrations/supabase/types.ts:213 | the three roles round-trip through their names |
| Profiles.ChurchPath | src/hooks/useAuth.tsx:94 | a church page path is `/church/` followed by the id, and nothing else |
| Profiles.RoleHome | src/hooks/useAuth.tsx:82-103 | superadmin → `/superadmin`; cliente → `/dashboard`; admin_igreja → its church page when `igreja_id` is truthy, else `/dashboard`; any other role → the caller's fallback |
| Profiles.RoleHomeFallbackOnlyForUnknown | src/components/ProtectedRoute.tsx:36-48 | the three copies of the switch differ exactly on unrecognised roles |
| Routes.MatchRoute | src/App.tsx:25-52 | a path selects a church page exactly when it is `/church/` plus one non-empty segment, and that page's id is the segment |
| Routes.AllowedRoles | src/App.tsx:28-51 | exactly `/superadmin`, `/dashboard` and church pages are guarded, each with a non-empty list of known roles |
| Routes.ChurchPathMatches | src/App.tsx:45 | every church path built from a segment selects that church's page |
| Routes.SuperAdminAdmitsExactly | src/App.tsx:28-35 | `/superadmin` is guarded and admits exactly the superadmin role |
| Routes.DashboardAdmitsExactly | src/App.tsx:36-43 | `/dashboard` is guarded and admits exactly the cliente role |
| Routes.ChurchPageAdmitsKnownRoles | src/App.tsx:44-51 | a church page admits exactly the three known roles, whatever church it names |
| Routes.UnguardedRoutes | src/App.tsx:26-52 | `/` and `/login` are unguarded, and any path outside the table is the not-found page |
| RouteGuard.DefaultProps | src/components/ProtectedRoute.tsx:12-16 | by default no role list and a redirect to `/login` |
| RouteGuard.GuardHome | src/components/ProtectedRoute.tsx:36-48 | the guard sends exactly the unrecognised roles to `/login`, and every known role where useAuth would |
| RouteGuard.Effect | src/components/ProtectedRoute.tsx:19-52 | no navigation while loading; missing user or profile → `redirectTo`; inactive → `/login` whatever `redirectTo` is; disallowed role → the role home; otherwise none |
| RouteGuard.Render | src/components/ProtectedRoute.tsx:54-75 | a spinner exactly while loading; the page exactly when loaded, signed in, active and of an allowed role |
| RouteGuard.EffectAgreesWithRender | src/components/ProtectedRoute.tsx:19-75 | the effect redirects exactly when the render shows nothing |
| RouteGuard.Decide | src/components/ProtectedRoute.tsx:19-75 | the combined outcome is waiting, redirecting or admitting, in agreement with both the effect and the render |
| RouteGuard.PageDecision | src/App.tsx:25-52 | an unguarded page always renders; a guarded page renders exactly for a loaded, signed-in, active profile its route admits; it waits while loading |
| RouteGuard.InactiveNeverAdmitted | src/components/ProtectedRoute.tsx:28-31 | an inactive profile is always redirected to `/login` |
| RouteGuard.DisallowedRoleNeverAdmitted | src/components/ProtectedRoute.tsx:34-49 | a role absent from a non-empty list is never admitted |
| RouteGuard.EmptyRoleListAdmitsActive | src/components/ProtectedRoute.tsx:66-75 | an empty role list admits every signed-in active profile |
| RouteGuard.UnknownRoleGoesToLogin | src/components/ProtectedRoute.tsx:46-47 | an excluded unrecognised role goes to `/login`, where useAuth's copy would send it to `/` |
| RouteGuard.RoleHomeAdmitted | src/App.tsx:28-51 | for superadmin, cliente, and admin_igreja with a church id, the guard's role home admits the profile |
| RouteGuard.RedirectSettles | src/components/ProtectedRoute.tsx:34-49 | for those profiles one role-home redirect lands on a page that admits them |
| RouteGuard.AdminWithoutChurchLoops | src/components/ProtectedRoute.tsx:43-44 | an admin_igreja without a church id is redirected from `/dashboard` to `/dashboard` |
| RouteGuard.ChurchIdIgnored | src/App.tsx:44-51 | the decision on a church page does not depend on which church it is |
| Auth.FetchUserProfile | src/hooks/useAuth.tsx:49-80 | a profile exactly when the read succeeded with a row, inactive rows included; the not-found notice exactly for code PGRST116 |
| Auth.RedirectForRole | src/hooks/useAuth.tsx:82-103 | the landing page exactly for unrecognised roles, and never the login page |
| Auth.RedirectIgnoresClienteId | src/hooks/useAuth.tsx:82-103 | the customer id never changes the target, and an unknown role goes to `/` |
| Auth.OnAuthStateChange | src/hooks/useAuth.tsx:110-135 | every event records the session and its user and stops loading; without a user the profile is cleared |
| Auth.OnProfileFetched | src/hooks/useAuth.tsx:116-130 | the fetched profile, or none, is stored; navigation happens exactly for SIGNED_IN with a profile, to its role home |
| Auth.HandleAuthEvent | src/hooks/useAuth.tsx:110-136 | a whole event never navigates except on SIGNED_IN, and leaves the session's user and the fetched profile |
| Auth.OnGetSession | src/hooks/useAuth.tsx:140-156 | session restore never navigates, keeps the previous profile when none is fetched, and does nothing if it rejects |
| Auth.SignInErrorText | src/hooks/useAuth.tsx:170-180 | the two known provider messages map to fixed texts, and any other is shown as is |
| Auth.SignIn | src/hooks/useAuth.tsx:161-201 | no error exactly when the provider accepted and nothing threw; a toast exactly on failure; no state written |
| Auth.SignOut | src/hooks/useAuth.tsx:203-214 | once the provider call returns, user, profile and session are cleared and the page goes to `/`; a throw changes nothing |
| Auth.SignOutTwice | src/hooks/useAuth.tsx:203-214 | signing out twice ends in the same state as once |
| Auth.Next | src/hooks/useAuth.tsx:105-214 | navigation only ever comes from sign-out or a SIGNED_IN profile fetch |
| Auth.Run | src/hooks/useAuth.tsx:105-214 | loading never restarts over a run, and deferred profile fetches alone never change the session or user |
| Auth.NextKeepsCoherent | src/hooks/useAuth.tsx:113-114 | every step keeps the user equal to the session's user |
| Auth.NextKeepsLoaded | src/hooks/useAuth.tsx:135 | once loading has stopped it never restarts |
| Auth.RunKeepsCoherent | src/hooks/useAuth.tsx:105-159 | the user equals the session's user after any sequence of steps |
| Auth.LateProfileOutlivesSignOut | src/hooks/useAuth.tsx:116-133 | after sign-in then sign-out, the fetch the sign-in scheduled stores a profile next to no user and redirects to the role home |
| SecureAuth.FetchActiveProfile | src/hooks/useSecureAuth.tsx:33-72 | a profile exactly when a row came back with `ativo` true; the inactive notice exactly for a row without it |
| SecureAuth.CheckTrialStatus | src/hooks/useSecureAuth.tsx:74-90 | expired only when the call returned `true`; every failure reads as not expired |
| SecureAuth.InitAuth | src/hooks/useSecureAuth.tsx:95-161 | when still mounted, records the session, the active profile and the customer's trial flag, and stops loading; a session without a user leaves profile and trial flag as they were; a throw only stops loading (when mounted) and registers no listener |
| SecureAuth.OnAuthEvent | src/hooks/useSecureAuth.tsx:121-147 | ignored unless registered and mounted; without a user clears profile and trial flag; the trial check runs only for a cliente profile |
| SecureAuth.Unmount | src/hooks/useSecureAuth.tsx:165-167 | cleanup only drops the mounted flag |
| SecureAuth.Next | src/hooks/useSecureAuth.tsx:92-168 | a step never remounts, never unregisters the listener, changes nothing once unmounted, and never exposes an inactive profile |
| SecureAuth.Run | src/hooks/useSecureAuth.tsx:92-168 | over a run the hook never remounts or unregisters, and the listener is registered only by an initialisation |
| SecureAuth.NextKeepsProfileActive | src/hooks/useSecureAuth.tsx:54-63 | no step exposes an inactive profile |
| SecureAuth.RunKeepsProfileActive | src/hooks/useSecureAuth.tsx:92-168 | from mount on, the exposed profile is none or active |
| SecureAuth.NothingAfterUnmount | src/hooks/useSecureAuth.tsx:123-131 | after unmount no input changes the exposed state |
| SecureAuth.FailedInitIgnoresEvents | src/hooks/useSecureAuth.tsx:152-160 | after a failed initialisation auth events change nothing |
| SecureAuth.TrialFlagOutlivesCustomer | src/hooks/useSecureAuth.tsx:133-139 | a set trial flag survives a later superadmin session |
| Trial.CeilDiv | src/utils/trialExpiration.ts:49 | the quotient is the least integer at or above the exact ratio |
| Trial.CeilDivMonotone | src/utils/trialExpiration.ts:49 | a ceiling quotient never decreases as the dividend grows |
| Trial.StatusOf | src/utils/trialExpiration.ts:46-57 | trial client iff tag is `Período de teste`; expiry seven days after creation; days left never negative and positive iff before expiry; expired iff trial client at or after expiry |
| Trial.ExpiredImpliesTrial | src/utils/trialExpiration.ts:56 | only trial clients expire |
| Trial.DaysLeftNonIncreasing | src/utils/trialExpiration.ts:49-55 | days left never go up as time passes |
| Trial.ExpiryIsPermanent | src/utils/trialExpiration.ts:48-56 | an expired trial stays expired |
| Trial.GetTrialStatus | src/utils/trialExpiration.ts:30-66 | a status exactly when the query returned a row; any error gives none |
| Trial.CheckAndInactivateExpiredTrials | src/utils/trialExpiration.ts:5-27 | true iff the sweep reported no error and did not throw |
| ErrorHandler.GetUserMessage | src/utils/errorHandler.ts:38-68 | always one of the eight fixed texts or the caller's default, never the raw message; credential errors give the credentials text |
| ErrorHandler.Classify | src/utils/errorHandler.ts:42-67 | the classification never produces anything outside the fixed texts and the default |
| ErrorHandler.FirstMatch | src/utils/errorHandler.ts:42-67 | a first-match classifier yields the default or one of its rules' texts |
| ErrorHandler.GetUserMessageIsFirstMatch | src/utils/errorHandler.ts:42-67 | the classifier is first-match over credentials, unconfirmed, rate limit, weak password, signup disabled, 23505, 42501, network, default |
| ErrorHandler.GetUserMessageIgnoresCase | src/utils/errorHandler.ts:40 | matching ignores the case of the message |
| ErrorHandler.MissingMessageIsEmpty | src/utils/errorHandler.ts:40 | a missing error or message classifies as the empty message |
| ErrorHandler.SanitizeForLogging | src/utils/errorHandler.ts:71-86 | non-objects are returned as is; an object keeps its keys, has each present sensitive field redacted and every other value unchanged |
| ErrorHandler.OrElse | src/utils/errorHandler.ts:25-29 | `x \|\| fallback` on an optional string: the value when present and non-empty, else the fallback |
| ErrorHandler.LogError | src/utils/errorHandler.ts:11-36 | a record only in production, with the action, the user message or default, the caller's timestamp, the context's non-empty `userId` or `unknown`, and the error code or `unknown` |
| ErrorHandler.LogErrorIgnoresMessage | src/utils/errorHandler.ts:23-30 | the raw error message never reaches the record |
| InputValidation.FirstLine | src/utils/inputValidation.ts:14 | the longest prefix without a line terminator, as `.*` in a look-ahead sees it |
| InputValidation.PasswordPattern | src/utils/inputValidation.ts:14 | a password the pattern accepts contains a lower-case letter, an upper-case letter and a digit |
| InputValidation.PasswordPatternSingleLine | src/utils/inputValidation.ts:14 | on a one-line password the pattern asks for a lower-case letter, an upper-case letter and a digit |
| InputValidation.PasswordSchema | src/utils/inputValidation.ts:11-14 | accepted iff 8 to 128 characters and the pattern holds; rejections carry only the schema's three messages |
| InputValidation.EmailSchema | src/utils/inputValidation.ts:5-8 | accepted iff well-formed and at most 255 characters; the output is the lower-cased, trimmed input |
| InputValidation.TextSchema | src/utils/inputValidation.ts:17-34 | accepted iff the length bounds and the character class hold; the output is trimmed |
| InputValidation.ChurchNameSchema | src/utils/inputValidation.ts:17-21 | 2 to 100 characters of letters, Latin-1 letters, digits, spaces, `-` and `.`; output trimmed |
| InputValidation.AddressSchema | src/utils/inputValidation.ts:24-27 | 5 to 200 characters; output trimmed |
| InputValidation.PastorNameSchema | src/utils/inputValidation.ts:30-34 | 2 to 100 characters of the name class without digits; output trimmed |
| InputValidation.ChurchTypeSchema | src/utils/inputValidation.ts:59 | accepted iff `matriz` or `filial` |
| InputValidation.SanitizeText | src/utils/inputValidation.ts:37-42 | no `<` or `>`, at most 1000 characters, a prefix of the trimmed input with brackets deleted, in input order |
| Text.Delete | src/utils/inputValidation.ts:40 | the dropped characters are gone and every other character is kept, as often as it occurs and in order |
| InputValidation.SanitizeTextNotIdempotent | src/utils/inputValidation.ts:37-42 | sanitising `< a` gives ` a`, and sanitising that again gives `a` |
| InputValidation.ValidateChurchData | src/utils/inputValidation.ts:55-65 | valid iff every field's schema accepts; the result holds each field trimmed, the e-mail lower-cased first and the type as given; an invalid result carries at least one issue |
| InputValidation.ValidateLoginData | src/utils/inputValidation.ts:68-75 | valid iff the e-mail schema accepts and the password is non-empty |
| InputValidation.LoginAcceptsAnyNonEmptyPassword | src/utils/inputValidation.ts:71 | login validation puts no strength rule on the password |
| Login.LooksLikeEmail | src/pages/Login.tsx:43 | text the loose pattern accepts has at least five characters and an `@` |
| Login.LooksLikeEmailOfParts | src/pages/Login.tsx:43 | any text containing `x@y.z` with non-blank parts passes the loose pattern |
| Login.NoAtNoEmail | src/pages/Login.tsx:43 | text without `@` fails it |
| Login.EmailError | src/pages/Login.tsx:40-46 | no error iff non-blank and matching; blank gives the required message |
| Login.PasswordError | src/pages/Login.tsx:48-54 | no error iff non-blank and at least 6 characters untrimmed; blank gives the required message |
| Login.ValidateForm | src/pages/Login.tsx:36-58 | valid iff both error strings are empty, and both fields are always checked |
| Login.BlankPasswordIsMissing | src/pages/Login.tsx:48-50 | a white-space password is reported as missing at any length |
| Login.HandleLogin | src/pages/Login.tsx:60-77 | `signIn` is called, with the untrimmed credentials, exactly when the form is valid; loading ends cleared after a call |
| Login.HandleInputChange | src/pages/Login.tsx:79-92 | only the edited field and its error change |
| Login.EditingClearsErrors | src/pages/Login.tsx:79-92 | editing both fields clears every error |
| Login.AlreadySignedIn | src/pages/Login.tsx:18-34 | a redirect exactly when loaded with user and profile, to useAuth's role home |
| Login.AlreadySignedInNeverLogin | src/pages/Login.tsx:18-33 | a signed-in visitor is never sent back to the login page |
| Login.InactiveUserBounces | src/pages/Login.tsx:18-33 | an inactive profile with a reachable home is redirected away from the login page to a page whose guard sends it back to `/login` |
| FreeTrial.MatchesGroupsDigits | src/components/FreeTrialModal.tsx:40 | text matching digit groups with optional separators holds exactly the groups' digits and at most one separator each |
| FreeTrial.BareDigitsMatch | src/components/FreeTrialModal.tsx:40 | the right number of bare digits always matches |
| FreeTrial.CnpjGroupCounts | src/components/FreeTrialModal.tsx:40 | the CNPJ pattern has 14 digits in five groups with four optional separators |
| FreeTrial.CnpjPattern | src/components/FreeTrialModal.tsx:40 | a CNPJ the pattern accepts has 14 to 18 characters of which exactly 14 are digits |
| FreeTrial.CnpjPatternGivesFourteenDigits | src/components/FreeTrialModal.tsx:98-100 | a CNPJ the pattern accepts has exactly 14 digits and 14 to 18 characters |
| FreeTrial.BareCnpjAccepted | src/components/FreeTrialModal.tsx:40 | fourteen bare digits are an accepted CNPJ |
| FreeTrial.ParseSignupForm | src/components/FreeTrialModal.tsx:28-51 | valid iff name 2..100 of the name class, phone 10..15 of the phone class, CNPJ 14..18 matching, members 1..10000, e-mail well-formed and ≤ 255, password 8..128 with the pattern |
| FreeTrial.Sanitize | src/components/FreeTrialModal.tsx:88-95 | name and phone are the trimmed input, the e-mail the lower-cased then trimmed input, the CNPJ the input's digits in order; members and password untouched |
| Text.StripNonDigits | src/components/FreeTrialModal.tsx:91 | only digits remain, every digit is kept as often as it occurs and in order, and all-digit text is unchanged |
| FreeTrial.SanitizeIdempotent | src/components/FreeTrialModal.tsx:88-95 | sanitising already sanitised data changes nothing |
| FreeTrial.Failed | src/components/FreeTrialModal.tsx:172-205 | a failed submission keeps the dialog open, does not navigate and clears loading |
| FreeTrial.AfterSignUp | src/components/FreeTrialModal.tsx:122-170 | the RPC is called with the new user; a reported failure deletes that user as the last call; the RPC's own error (or `Erro ao criar cliente` for a null result) is the error shown; success closes and goes to `/dashboard` |
| FreeTrial.OnSubmit | src/components/FreeTrialModal.tsx:83-206 | succeeds iff the CNPJ has 14 digits, sign-up made a user and the RPC succeeded; the sign-up error, the no-user message or the RPC error is re-thrown unchanged into the message mapping; loading always ends cleared |
| FreeTrial.NoRpcWithoutUser | src/components/FreeTrialModal.tsx:114-120 | no client is created unless sign-up produced a user |
| FreeTrial.CleanupPrecedesFailure | src/components/FreeTrialModal.tsx:135-157 | on an RPC error or negative result the user deletion is attempted before the failure surfaces |
| FreeTrial.NegativeResultMessage | src/components/FreeTrialModal.tsx:149-157 | a negative result fails with its own text, or `Erro ao criar cliente` when it has none |
| FreeTrial.SchemaValidFormPassesCnpjCheck | src/components/FreeTrialModal.tsx:97-100 | for a schema-valid form the 14-digit check never fires and sign-up is always called |
| FreeTrial.SignupErrorText | src/components/FreeTrialModal.tsx:179-196 | the text shown is one of the seven fixed texts |
| FreeTrial.SignupErrorTextIsFirstMatch | src/components/FreeTrialModal.tsx:179-196 | the mapping is first-match in source order on the message as written, then the codes |
| FreeTrial.SignupErrorTextIsCaseSensitive | src/components/FreeTrialModal.tsx:182 | `duplicate key` is recognised and `DUPLICATE KEY` is not |
| SuperAdmin.InitialIdsArePositions | src/pages/SuperAdmin.tsx:13-41 | the sample clients' ids are their positions plus one |
| SuperAdmin.AddClient | src/pages/SuperAdmin.tsx:53-73 | exactly one client appended, with id length + 1, pending, no churches and the form's contents; the form emptied |
| SuperAdmin.AddClientKeepsIds | src/pages/SuperAdmin.tsx:55 | adding keeps ids equal to positions, so they stay distinct |
| SuperAdmin.Toggled | src/pages/SuperAdmin.tsx:78 | active becomes inactive; pending and inactive become active |
| SuperAdmin.ToggleTwice | src/pages/SuperAdmin.tsx:78 | toggling twice restores active and inactive clients but not pending ones |
| SuperAdmin.ToggleStatus | src/pages/SuperAdmin.tsx:75-85 | length kept; matching clients toggled, all others unchanged |
| SuperAdmin.ToggleChangesOne | src/pages/SuperAdmin.tsx:76-80 | with ids equal to positions, only the client at that id changes |
| SuperAdmin.CountersOf | src/pages/SuperAdmin.tsx:137-186 | total is the list length, and active plus pending never exceeds it |
| SuperAdmin.CountersAppend | src/pages/SuperAdmin.tsx:137-186 | each counter of a joined list is the sum of the parts' counters |
| SuperAdmin.CountersOfSingleton | src/pages/SuperAdmin.tsx:137-186 | one client counts once in the total, once as active or pending by its status, and adds its own churches |
| SuperAdmin.AddClientCounters | src/pages/SuperAdmin.tsx:53-61 | adding raises the total and pending counts by one and leaves active and churches unchanged |
| SuperAdmin.MatchesTerm | src/pages/SuperAdmin.tsx:87-90 | the empty term matches every client, and a matching term is no longer than the name or the e-mail |
| SuperAdmin.FilterClients | src/pages/SuperAdmin.tsx:87-90 | an order-preserving subsequence keeping exactly the clients whose lower-cased name or e-mail contains the lower-cased term, each as often as it occurs |
| SuperAdmin.EmptySearchKeepsAll | src/pages/SuperAdmin.tsx:87-90 | the empty term keeps every client |
| SuperAdmin.SearchIgnoresTermCase | src/pages/SuperAdmin.tsx:88-89 | searching for a term and for its lower-cased form gives the same list |
| SuperAdmin.StatusLabel | src/pages/SuperAdmin.tsx:92-103 | Ativo, Pendente, Inativo for the three statuses, Desconhecido for anything else |
| SuperAdmin.ToggledStatusHasLabel | src/pages/SuperAdmin.tsx:92-103 | a toggled client always has a known label |
| Dashboard.AddChurch | src/pages/Dashboard.tsx:46-68 | exactly one church appended, with id length + 1, zero members, events, income and expenses; the form reset with type `filial` |
| Dashboard.TotalsOf | src/pages/Dashboard.tsx:70-73 | no churches give zero totals, and net income is the sum of the churches' balances |
| Dashboard.TotalsOfSingleton | src/pages/Dashboard.tsx:70-73 | one church's totals are its own members, events, income and expenses |
| Dashboard.TotalsAppend | src/pages/Dashboard.tsx:70-73 | the totals of a joined list are the sums of the parts' totals |
| Dashboard.AddChurchKeepsTotals | src/pages/Dashboard.tsx:46-73 | adding a church leaves all four totals unchanged |
| Dashboard.TotalBalance | src/pages/Dashboard.tsx:70-73 | total income minus total expenses is the sum of the churches' balances |
| Dashboard.BalanceTone | src/pages/Dashboard.tsx:279-282 | surplus styling iff income is at least expenses |

## Left out

- Supabase I/O: sign-in, sign-up, sign-out, session restore, table reads and the server functions. Their bodies are not part of this model, so they appear only as outcome datatypes.
- React rendering, toasts, `console` output (including the full error and context `logError` prints in development) and `window.location`. Navigation is returned as a path.
- Overlapping async handlers: each handler runs to completion as one step. The `setTimeout` profile fetch in useAuth is the one step split off.
- SecureAuth.InitAuth: runs atomically. The source re-checks `mounted` after each `await`, so an unmount in the middle of initialisation is not modelled.
- SecureAuth.OnAuthEvent: runs with its deferred fetch as one step, for the same reason.
- The subscription clean-up returned by useSecureAuth's `initAuth`: the effect discards it, so nothing is released.
- InputValidation.EmailSchema: the library's e-mail format check is a boolean parameter, because its regular expression is internal to the validation library.
- The UUID schema (`uuidSchema`), for the same reason.
- `financialAmountSchema`: floating point.
- Dashboard amounts, trial times and member counts are integers. Fractional amounts and invalid dates (`NaN`) are not modelled.
- Lengths are counted in code points. JavaScript counts UTF-16 units, which differ only outside the Basic Multilingual Plane.
- `toLowerCase` covers ASCII and Latin-1 capitals only.
- Route matching is exact. The router's case-insensitive matching and trailing-slash tolerance are not modelled.
- ErrorHandler.SanitizeForLogging: covers JSON objects with string keys only. Arrays and inherited properties are not modelled.
- The chart percentages and `toLocaleString` formatting: floating point and presentation only.
- src/pages/ChurchDashboard.tsx, src/pages/Index.tsx, src/components/FreeTrialButton.tsx and src/components/TrialExpiredBanner.tsx: sample data and markup, with no policy logic.
- src/integrations/supabase/types.ts: used only as the source of the datatypes; it holds no behaviour.
- The "show password" toggles and the dialog's open state: presentation only.

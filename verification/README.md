# LE-FRONT2.0 admin front end, modelled in Dafny

LE-FRONT2.0 is the Next.js back-office of a restaurant system. The front end is
mostly a set of small decision procedures. This project models them as pure
functions over immutable state records, and proves what they promise.

The decision procedures modelled are:

- who may see which page;
- what the browser keeps about the session;
- how the API gateway builds requests and turns failures into messages;
- how the two password-recovery flows step;
- what the create/edit dialogs check and send;
- which request each resource-service call makes;
- the small helpers of the screens.

Awaited calls are handled the same way throughout. A handler is one transition that takes the settled reply as a parameter. It returns the request it sent, plus the navigation, alert or dialog effects it caused, as data. Clocks, timers and the hour of day are parameters or discrete ticks.

Modules, one per area of the program:

| file | module | models |
|---|---|---|
| base.dfy | Base | `Option`, thrown errors, JavaScript truthiness, decimal rendering of ids with its parse round trip, splitting at a separator |
| seqs.dfy | Seqs | `Array.filter`, subsequences, `Array.from(new Set(xs))` |
| text.dfy | Text | `trim`, `toUpperCase`, `split` |
| routing.dfy | Routing | `middleware.ts` and `ProtectedRoute` |
| session.dfy | Session | `AuthManager` over local storage and the cookie jar |
| api.dfy | Api | `ApiService` |
| auth_context.dfy | AuthContext | `AuthProvider` and `useAuth` |
| recovery.dfy | Recovery | the forgot-password screen |
| login_page.dfy | LoginPage | the login screen with its embedded recovery flow |
| services.dfy | Services | the professionals, clients and products services |
| dialogs.dfy | Dialogs | what all create/edit dialogs share |
| professional_dialogs.dfy, client_dialogs.dfy, product_dialogs.dfy | ProfessionalDialogs, ClientDialogs, ProductDialogs | the six dialogs |
| screens.dfy | Screens | the list-screen controller shared by `/usuarios` and `/clientes` |
| staff_screen.dfy, clients_screen.dfy, products_screen.dfy, dashboard.dfy | StaffScreen, ClientsScreen, ProductsScreen, Dashboard | the four screens |

Behaviours of the code worth knowing, which the model follows as written:

- **The route guard on first mount.** The guard's comment at `src/components/ProtectedRoute.tsx:56-57` says that an unauthenticated visitor on a protected page sees nothing because the effect has already redirected. The guard's `isChecking` flag starts true and is not cleared on that path. So on a fresh mount the loading view stays on screen while the navigation happens. The blank view appears only when a session is lost after the check finished (`Routing.GateDecision`).
- **The login screen's code check.** It does not go through the gateway. It calls a hard-coded `http://localhost:3333/sessions/verify-code`, whatever API address is configured. It also reads the body before looking at the status (`LoginPage.VerifyCode`).
- **Login principals.** The auth context adopts only `client`; the login screen saves `client`, or else `user`. A reply carrying only `user` therefore signs in from the login screen but not through the context (`AuthContext.UserOnlyReplyStaysSignedOut`, `LoginPage.Submit`).
- **Empty token.** The session store counts an empty token as signed in, but the edge middleware does not. The token also goes into the cookie unencoded, so a blank token, or one starting with `;`, leaves an empty cookie as well. Saving such a token makes the login screen and the middleware send the browser back and forth (`LoginPage.EmptyTokenRedirectCycle`).
- **Paths the middleware never sees.** The middleware's matcher excludes paths starting with `/api`, `/_next/static`, `/_next/image`, `/assets` and a favicon pattern. The prefixes are not delimited, so a page such as `/apiary` would be served without a session (`Routing.ExemptPathsPass`).

## Model

| member | source | states |
|---|---|---|
| Routing.IsPublicPage | middleware.ts:8-11 | a path is public exactly when it starts with `/login` or `/register`, so `/loginx` and `/registered` are public too |
| Routing.Middleware | middleware.ts:4-31 | a matched request passes exactly when the page is public or the `auth-token` cookie is non-empty; otherwise it is redirected to login carrying the requested path; the token is never validated |
| Routing.PublicPagesNeverRedirect | middleware.ts:14-16 | `/login` and `/register` followed by anything (a query, `x`, `ed`) pass whatever the cookie |
| Routing.Edge | middleware.ts:4-42 | a request passes exactly when its path is outside the matcher, or the page is public, or the cookie is non-empty; a redirect happens only on a matched path and carries that path |
| Routing.ExemptPathsPass | middleware.ts:33-42 | paths under `/api`, `/_next/static`, `/_next/image` and `/assets`, including undelimited ones such as `/apiary`, and `/favicon.ico` (its `.` matching any character) are served without a cookie |
| Routing.ScreensAreProtected | middleware.ts:19-42 | every application screen is matched, and with an absent or empty cookie redirects to login with itself as `redirect` |
| Routing.GateRender | src/components/ProtectedRoute.tsx:45-63 | children render only when loading is over and the page is public or the user authenticated; nothing renders only for an unauthenticated visitor on a protected page; loading always shows the spinner |
| Routing.GateEffect | src/components/ProtectedRoute.tsx:21-42 | while loading the effect does nothing; afterwards it navigates exactly for an unauthenticated visitor on a protected page, to login carrying the path, and otherwise ends the check |
| Routing.GateWaitsWhileLoading | src/components/ProtectedRoute.tsx:22-25 | while the context loads, a render round shows the spinner, navigates nowhere and keeps the gate's state |
| Routing.GateDecision | src/components/ProtectedRoute.tsx:21-63 | once loaded, children show exactly when the page is public or the user authenticated, and a login navigation with the path happens exactly otherwise; during that navigation a fresh gate shows the spinner and a finished gate shows nothing |
| Routing.FreshMountShowsSpinner | src/components/ProtectedRoute.tsx:15-63 | a freshly mounted gate on a protected page shows the spinner while navigating to login without a session, and the children with one |
| Routing.GatesAgree | src/components/ProtectedRoute.tsx:17-19 | with the cookie present exactly when the context is authenticated, the middleware, on a path the matcher hands it, passes exactly when the gate shows children, and both redirect to the same login target; outside the matcher the edge always passes, so a visitor without a session on a protected page is let through by the edge and redirected by the gate |
| Routing.ExemptPageDisagreement | src/components/ProtectedRoute.tsx:17-42 | `/apiary` without a session is served by the edge, while the gate navigates to login with it as `redirect` |
| Session.SaveAuth | src/lib/auth.ts:17-25 | with a window, the token and user are stored and the cookie `auth-token=<token>; path=/; max-age=604800` is written unencoded and live; the jar then holds the browser's reading of that text, which is the token itself exactly for a cookie-safe token; without a window nothing changes |
| Session.CookieValue | src/lib/auth.ts:23 | the value a browser keeps from the written text has no `;` and no space or tab at either end, and equals the token when the token is cookie-safe |
| Session.CookieValueEmpty | src/lib/auth.ts:23 | the cookie comes out empty exactly when everything before the token's first `;` is spaces and tabs |
| Session.CookieIgnoresAttributes | src/lib/auth.ts:23 | whatever a token carries after its first `;` is read as attributes and does not change the cookie's value |
| Session.BlankCookie | src/lib/auth.ts:23 | a token of spaces and tabs, the empty token included, leaves an empty cookie |
| Session.BlankBeforeAttributes | src/lib/auth.ts:23 | a token that is blank up to its first `;` (such as `";x"`) leaves an empty cookie |
| Session.IsAuthenticated | src/lib/auth.ts:42-44 | authenticated exactly when a window exists and a token of any value (the empty string included) is stored |
| Session.ClearAuth | src/lib/auth.ts:46-54 | both getters answer null afterwards; with a window the cookie is overwritten empty with the 1970 expiry, so it leaves the jar |
| Session.Logout | src/lib/auth.ts:56-61 | the store and cookie as after `clearAuth`, then a navigation to `/login` exactly when a window exists |
| Session.SaveGetRoundTrip | src/lib/auth.ts:17-39 | what is saved is read back, counts as authenticated, and no longer after a clear |
| Session.ClearIdempotent | src/lib/auth.ts:46-54 | clearing twice leaves the same store as clearing once |
| Session.NoWindowIsInert | src/lib/auth.ts:27-39 | without a window the getters answer null and save, clear and logout change nothing |
| Session.StoreAndEdgeAgree | src/lib/auth.ts:23-52 | after saving a token that leaves a non-empty cookie (every non-empty cookie-safe token does) every path passes the middleware; after a clear every protected path is redirected |
| Session.EmptyTokenDisagreement | src/lib/auth.ts:23-44 | a saved token that leaves an empty cookie (empty, blank, or starting with `;`) counts as authenticated in the store while the edge redirects the dashboard |
| Api.BaseUrl | src/lib/api.ts:1 | the configured address when it is non-empty, the local default otherwise; never empty |
| Api.GetHeaders | src/lib/api.ts:49-59 | always `Content-Type: application/json`; `Authorization: Bearer <token>` exactly when the token is truthy; no other header |
| Api.ErrorMessage | src/lib/api.ts:68-71 | an unparseable error body gives the connection message; a `null` body gives the TypeError of reading `message` from null; a truthy `message` of any JSON type gives its string conversion (a string as is, a number in decimal); a falsy or missing `message`, or a non-object body, gives the endpoint's default; with a non-empty default the message is never empty unless `message` is an array |
| Api.MessageTexts | src/lib/api.ts:68-70 | a numeric `message` gives its decimal text and `true` gives "true", while `0`, `null` and `""` give the default |
| Api.JsText | src/lib/api.ts:70 | a string converts to itself and an integer to a decimal text that parses back to it |
| Api.Settle | src/lib/api.ts:88-91 | a call yields a value exactly on an OK status; a non-OK status always becomes a thrown error whose message is the normalised one, a `null` body included (there the thrown TypeError's text); transport failures propagate unchanged |
| Api.LoginResult | src/lib/api.ts:61-80 | a successful login returns exactly the body's `client`, `user` and `token`; failures follow the login error chain |
| Api.LoginErrorChain | src/lib/api.ts:68-70 | a non-OK login always throws: with the text of a truthy `message`, the connection message for an unreadable body, the TypeError text for a `null` body, and otherwise the incorrect-credentials message |
| Api.DefaultMessagesPerEndpoint | src/lib/api.ts:68-119 | the same uninformative error body yields the four endpoints' four distinct default messages |
| Api.RequestHeaders | src/lib/api.ts:82-85 | only logout carries a bearer credential, built from the token it is given |
| AuthContext.Init | src/contexts/AuthContext.tsx:30-42 | after the mount check loading is over and a user is set exactly when a saved user and a non-empty token both exist |
| AuthContext.Login | src/contexts/AuthContext.tsx:44-60 | a reply with `client` adopts and persists it with the token; a reply without it changes nothing and raises nothing; a failure is rethrown with state and store untouched; loading ends in every case |
| AuthContext.Logout | src/contexts/AuthContext.tsx:62-79 | the backend is called exactly when a truthy token is stored, with that token; the store is cleared and the user dropped whatever the reply |
| AuthContext.UseAuth | src/contexts/AuthContext.tsx:17-23 | outside a provider the hook throws its error, inside it returns the provided context |
| AuthContext.LogoutIgnoresReply | src/contexts/AuthContext.tsx:70-78 | the result of logout does not depend on how the backend call settled |
| AuthContext.LogoutSendsBearer | src/contexts/AuthContext.tsx:66-69 | a logout call authenticates with the stored token |
| AuthContext.LoginScenario | src/contexts/AuthContext.tsx:44-60 | from a fresh mount, any login answered with a client and a non-empty token stores the token, authenticates, and the next mount finds the same user |
| AuthContext.UserOnlyReplyStaysSignedOut | src/contexts/AuthContext.tsx:50-53 | from any context state and for any credentials, a reply naming the principal `user` is accepted without error but leaves the context's user and the store as they were, so nobody is signed in |
| AuthContext.LoginSurvivesReload | src/contexts/AuthContext.tsx:30-60 | after a successful login the next mount is signed in exactly when the token is non-empty, and then with the same user |
| Recovery.CodeCheck | src/app/forgot-password/page.tsx:46-55 | a code passes exactly with six characters and time left; the length error is reported before the expiry error |
| Recovery.PasswordCheck | src/app/forgot-password/page.tsx:65-75 | a new password passes exactly when it matches its confirmation and has at least six characters; a mismatch is reported before a short password |
| Recovery.CountDown | src/app/forgot-password/page.tsx:23-28 | a tick takes one second off a running countdown and leaves zero at zero |
| Recovery.TicksCountDown | src/app/forgot-password/page.tsx:23-28 | n ticks take n seconds off the countdown, stopping at zero, and change nothing else |
| Recovery.RequestCode | src/app/forgot-password/page.tsx:30-44 | the reset request names the entered email; success moves to the code step with thirty seconds; failure shows the error's message or the fallback; loading ends |
| Recovery.VerifyCode | src/app/forgot-password/page.tsx:46-58 | without any backend call, the new-password step is reached exactly when the code check passes; otherwise only the error changes |
| Recovery.ResetPassword | src/app/forgot-password/page.tsx:60-93 | the reset call is made exactly when the password check passes, with the email, code and password held in the state; a navigation to `/login` after 2000 ms is scheduled exactly on success |
| Recovery.ResendCode | src/app/forgot-password/page.tsx:95-99 | back to the email step with the code cleared and the countdown stopped, nothing else changed |
| Recovery.Handle | src/app/forgot-password/page.tsx:139-227 | an event whose control is not on screen changes nothing; only the two form submissions send requests |
| Recovery.HandlePreservesConsistent | src/app/forgot-password/page.tsx:23-99 | every event keeps the countdown within thirty seconds, the code within six characters, and the new-password step only with a complete code |
| Recovery.RunPreservesConsistent | src/app/forgot-password/page.tsx:23-99 | any sequence of events keeps that invariant |
| Recovery.ReachableResetCarriesCompleteCode | src/app/forgot-password/page.tsx:77-82 | from the initial screen, whatever happened before, a reset request carries a six-character code |
| Recovery.ResetCarriesCompleteCode | src/app/forgot-password/page.tsx:77-82 | on a consistent new-password step the reset request carries the complete code |
| Recovery.CodeExpiresAfterThirtySeconds | src/app/forgot-password/page.tsx:36-55 | thirty seconds after a successful request a complete code is rejected as expired, while after twenty-nine it is accepted |
| Recovery.EnabledVerifyAdvances | src/app/forgot-password/page.tsx:216-217 | when the verify button is enabled, verification always advances |
| LoginPage.RedirectTarget | src/app/login/page.tsx:58 | the `redirect` parameter when present and non-empty, the dashboard otherwise; never empty |
| LoginPage.MountRedirect | src/app/login/page.tsx:36-41 | a visitor the store counts as signed in is sent on to the redirect target, and nobody else is |
| LoginPage.Submit | src/app/login/page.tsx:43-68 | the browser navigates exactly when the login succeeds with a `client` or a `user`; then that principal (client first) is saved with the token and the target is the redirect target; otherwise nothing is saved and an error is shown |
| LoginPage.ForgotPassword | src/app/login/page.tsx:70-75 | opens the recovery flow at the email step with messages cleared, nothing else changed |
| LoginPage.RequestCode | src/app/login/page.tsx:77-91 | the request names the recovery email; success moves to the code step with thirty seconds; failure keeps step and countdown |
| LoginPage.VerifyCode | src/app/login/page.tsx:93-133 | a call is made exactly when the local code check passes; the flow advances exactly when the backend then answers OK; a rejection shows the backend's message or "Código inválido" |
| LoginPage.ResetPassword | src/app/login/page.tsx:135-174 | the reset call is made exactly when the password check passes, with recovery email, code and password; a delayed clear is scheduled exactly on success, with the success message |
| LoginPage.DelayedClear | src/app/login/page.tsx:160-168 | the delayed clear returns to the credential form with every recovery field empty and leaves the error and the countdown alone |
| LoginPage.BackToLogin | src/app/login/page.tsx:176-185 | back to the credential form with every recovery field and the error empty |
| LoginPage.ResendCode | src/app/login/page.tsx:187-191 | does to the recovery fields exactly what the standalone screen's resend does, and nothing else |
| LoginPage.Tick | src/app/login/page.tsx:28-33 | the countdown ticks as on the standalone screen, and nothing else changes |
| LoginPage.RequestCodeAgrees | src/app/login/page.tsx:77-91 | requesting a code sends the same request and reaches the same recovery state as on the standalone screen |
| LoginPage.ResetPasswordAgrees | src/app/login/page.tsx:135-174 | resetting sends the same request and reaches the same recovery state as on the standalone screen; the delayed clear is scheduled exactly when the standalone screen schedules its navigation |
| LoginPage.VerifyCodeComparison | src/app/login/page.tsx:93-133 | the two verifications agree when a local check fails; otherwise the standalone screen advances while the embedded one asks the backend and advances only on an OK answer |
| LoginPage.RejectedCodeDisagreement | src/app/login/page.tsx:107-127 | a code the backend rejects keeps the embedded flow on the code step, although the standalone screen would accept it |
| LoginPage.Handle | src/app/login/page.tsx:236-361 | an event whose control is not on screen changes nothing |
| LoginPage.HandlePreservesConsistent | src/app/login/page.tsx:28-191 | every event keeps the recovery invariant of the standalone screen |
| LoginPage.RunPreservesConsistent | src/app/login/page.tsx:28-191 | any sequence of events keeps it |
| LoginPage.ReachableResetCarriesCompleteCode | src/app/login/page.tsx:152-157 | from the initial screen a reset request is only sent with a six-character code |
| LoginPage.RedirectRoundTrip | src/app/login/page.tsx:52-59 | a protected path redirected to login is where a successful sign-in returns, and, when the token leaves a non-empty cookie, the middleware then lets it through |
| LoginPage.EmptyTokenRedirectCycle | src/app/login/page.tsx:36-41 | with a saved token that leaves an empty cookie the login screen forwards to the dashboard while the edge sends the dashboard back to login |
| LoginPage.VerifyCodeBypassesGateway | src/app/login/page.tsx:109-110 | the code check's fixed address is the gateway's default base with `/sessions/verify-code`, and differs from the gateway's address for it whenever another base is configured |
| Text.TrimStart | src/components/EditProfessionalDialog.tsx:90 | the result is a suffix starting with non-whitespace, and everything cut off is whitespace |
| Text.TrimEnd | src/components/EditProfessionalDialog.tsx:90 | the result is a prefix ending with non-whitespace, and everything cut off is whitespace |
| Text.TrimBlank | src/components/EditProfessionalDialog.tsx:90 | a string trims to nothing exactly when it is all whitespace |
| Text.Upper | src/app/usuarios/page.tsx:108 | upper-casing keeps the length and maps each character by the case table |
| Text.Split | src/app/usuarios/page.tsx:105 | there is always at least one piece and no piece contains the separator |
| Text.SplitJoin | src/app/usuarios/page.tsx:105 | joining the pieces with the separator gives back the string |
| Seqs.Filter | src/app/usuarios/page.tsx:82-85 | exactly the passing elements, each as often as in the input, in input order |
| Seqs.DedupElements | src/app/usuarios/page.tsx:88-90 | the distinct values are each listed once and none is lost |
| Seqs.DedupFirstOccurrenceOrder | src/app/usuarios/page.tsx:88-90 | the distinct values appear in order of their first occurrence |
| Services.TermParams | src/services/clients.service.ts:47 | a `term` parameter exactly when the term is truthy, and nothing else |
| Services.ProductParams | src/services/products.service.ts:50-52 | `term` exactly when truthy; `category` exactly when truthy and not "Todos"; nothing else |
| Services.Build | src/services/products.service.ts:48-115 | the service passes no header but `company_id: 2` to the shared client; a body exactly for create and update; the verb matches the operation; entity operations target `<collection>/<id>` |
| Services.Unwrap | src/services/professionals.service.ts:81 | an update's result is the member under the service's key when present, else the whole data |
| Services.UnwrapCases | src/services/clients.service.ts:104 | a reply wrapped under the right key unwraps, an unwrapped reply is itself, a reply wrapped under another service's key is not unwrapped |
| Services.EntityPathInjective | src/services/products.service.ts:66 | two ids give the same entity path only when they are equal |
| Services.LookupPathsDistinct | src/services/clients.service.ts:55-77 | the categories path, the document and phone lookups and the entity paths never collide |
| Services.EveryCallCarriesTenant | src/services/professionals.service.ts:32-45 | every call of every kind is made for tenant "2", and the service passes no header but `company_id` |
| Services.AllCategoriesIsNoFilter | src/services/products.service.ts:52 | listing with "Todos" or an empty category asks for the same as listing with no category |
| Dialogs.FailureAlert | src/components/CreateProfessionalDialog.tsx:62 | the response's message when it is non-empty, the dialog's fallback otherwise |
| Dialogs.AfterCall | src/components/CreateProfessionalDialog.tsx:45-65 | after a call, success replaces the form, closes and notifies in that order; failure keeps the form and alerts |
| Dialogs.AfterCallClosesOnlyOnSuccess | src/components/CreateProfessionalDialog.tsx:58-63 | the dialog closes and notifies exactly when its call succeeded |
| Dialogs.LoadInto | src/components/EditProfessionalDialog.tsx:40-66 | a fetch happens exactly when the dialog is open with a truthy id; the fetched entity fills the form; a failure alerts and closes, keeping the form |
| ProfessionalDialogs.SubmitCreate | src/components/CreateProfessionalDialog.tsx:37-66 | the create call is made exactly when name, email, password and position are filled; success empties the form, then closes and notifies; failure keeps the form |
| ProfessionalDialogs.UpdatePayload | src/components/EditProfessionalDialog.tsx:81-92 | name, email, position and phone are always sent unchanged; the password is sent, untrimmed, exactly when it is not blank after trimming |
| ProfessionalDialogs.SubmitEdit | src/components/EditProfessionalDialog.tsx:68-104 | nothing without a truthy id; the update is made exactly when name, email and position are filled; close and notify only on success |
| ProfessionalDialogs.FormOf | src/components/EditProfessionalDialog.tsx:52-58 | a loaded professional fills the form with an empty password and a missing phone as empty |
| ProfessionalDialogs.Load | src/components/EditProfessionalDialog.tsx:40-66 | the professional is fetched exactly when the dialog is open with a truthy id; failure alerts and closes |
| ProfessionalDialogs.BlankPasswordOmitted | src/components/EditProfessionalDialog.tsx:89-92 | the password is sent exactly when it is not made only of whitespace |
| ProfessionalDialogs.LoadThenSaveKeepsPassword | src/components/EditProfessionalDialog.tsx:52-92 | saving a freshly loaded professional sends back its own fields and no password |
| ProfessionalDialogs.CreatedFormCannotResubmit | src/components/CreateProfessionalDialog.tsx:40-56 | after a successful create the emptied form cannot be submitted again |
| ClientDialogs.SubmitCreate | src/components/CreateClientDialog.tsx:37-66 | the create call is made exactly when name, phone, email and address are filled; success empties the form, then closes and notifies; failure keeps the form |
| ClientDialogs.SubmitEdit | src/components/EditClientDialog.tsx:68-90 | nothing without a truthy id; the update is made exactly when name, phone, email and address are filled; close and notify only on success |
| ClientDialogs.FormOf | src/components/EditClientDialog.tsx:52-58 | a loaded client fills the form with a missing document as empty and the other fields copied |
| ClientDialogs.Load | src/components/EditClientDialog.tsx:40-66 | the client is fetched exactly when the dialog is open with a truthy id; failure alerts and closes |
| ClientDialogs.LoadThenSaveRoundTrip | src/components/EditClientDialog.tsx:52-80 | saving a freshly loaded complete client sends back exactly its own fields |
| ClientDialogs.CreatedFormCannotResubmit | src/components/CreateClientDialog.tsx:40-56 | after a successful create the emptied form cannot be submitted again |
| ProductDialogs.Check | src/components/CreateProductDialog.tsx:50-58 | a product passes exactly with a name, a category and a positive price; a zero price is a missing field, a negative one a price error |
| ProductDialogs.SubmitCreate | src/components/CreateProductDialog.tsx:47-81 | the create call is made exactly when name and category are filled and the price is positive; success resets the form; close and notify only on success |
| ProductDialogs.SubmitEdit | src/components/EditProductDialog.tsx:78-105 | nothing without a truthy id; the update is made exactly when name and category are filled and the price is positive; close and notify only on success |
| ProductDialogs.FormOf | src/components/EditProductDialog.tsx:62-68 | a loaded product fills the form with missing notes as empty and a missing size as false |
| ProductDialogs.Load | src/components/EditProductDialog.tsx:50-76 | the product is fetched exactly when the dialog is open with a truthy id; failure alerts and closes |
| ProductDialogs.PriceRejections | src/components/CreateProductDialog.tsx:50-58 | a zero price is reported as a missing field, a negative one as a price error, in both dialogs |
| ProductDialogs.EditChecksAsCreate | src/components/EditProductDialog.tsx:83-91 | with an id, the edit dialog's differently written check accepts and rejects exactly as the create dialog's |
| ProductDialogs.LoadedProductSaves | src/components/EditProductDialog.tsx:62-95 | a loaded product with a name, a category and a positive price can be saved unchanged |
| Screens.LoadList | src/app/clientes/page.tsx:33-43 | loading ends whatever happens; fetched entries replace the list, a failure keeps it |
| Screens.HandleEdit | src/app/clientes/page.tsx:57-60 | the entry is selected and the edit dialog opened, the list untouched; the staff screen's `handleEdit` (src/app/usuarios/page.tsx, lines 76-79) is the same |
| Screens.DeleteOrder | src/app/usuarios/page.tsx:63-73 | a reload happens exactly after a confirmed successful delete and only after the delete call; an alert exactly after a confirmed failed one |
| StaffScreen.LoadProfessionals | src/app/usuarios/page.tsx:50-60 | the list call filters by the search term only when one was typed; loading ends; the fetched list replaces the shown one |
| StaffScreen.FilterByPosition | src/app/usuarios/page.tsx:82-85 | "all" keeps everyone; any other filter keeps exactly the professionals of that position, none dropped, in order |
| StaffScreen.UniquePositions | src/app/usuarios/page.tsx:88-90 | every position once, in order of first appearance, and exactly the positions held by someone |
| StaffScreen.HeadsAreWordStarts | src/app/usuarios/page.tsx:103-107 | the first characters of the space-separated pieces are exactly the characters that start a word |
| StaffScreen.InitialsAreFirstWordStarts | src/app/usuarios/page.tsx:103-110 | the initials are the upper-cased starts of the first two non-empty words, at most two |
| StaffScreen.InitialsOfTwoWords | src/app/usuarios/page.tsx:103-110 | a name beginning with two words has their upper-cased first letters as initials |
| StaffScreen.InitialsOfBlank | src/app/usuarios/page.tsx:103-110 | a name of spaces only, the empty name included, has no initials |
| StaffScreen.InitialsIgnoreLeadingSpace | src/app/usuarios/page.tsx:103-110 | a leading space does not change the initials |
| StaffScreen.HandleDelete | src/app/usuarios/page.tsx:63-73 | no call without confirmation; a confirmed delete is followed by the screen's own reload on success, by the alert on failure |
| ClientsScreen.LoadClients | src/app/clientes/page.tsx:33-43 | the list call filters by the search term only when one was typed; loading ends; the fetched list replaces the shown one |
| ClientsScreen.HandleDelete | src/app/clientes/page.tsx:45-55 | no call without confirmation; a confirmed delete is followed by the reload on success, by the alert on failure |
| ClientsScreen.FirstLoad | src/app/clientes/page.tsx:29-31 | the mount load asks for every client of the tenant and shows them with loading over |
| ClientsScreen.DeleteReloadsLikeLoad | src/app/clientes/page.tsx:48-50 | the reload after a delete is the screen's own list call with the same search term |
| ProductsScreen.FilterByCategory | src/app/produtos/page.tsx:76-79 | "Todos" keeps every product; any other category keeps exactly its products, none dropped, in order |
| ProductsScreen.FilterIdempotent | src/app/produtos/page.tsx:76-79 | filtering twice by a category is filtering once |
| ProductsScreen.CategoriesAreDisjoint | src/app/produtos/page.tsx:79 | two different categories never show the same product |
| ProductsScreen.ShownUnderOwnCategory | src/app/produtos/page.tsx:79 | every product is shown when its own category is chosen |
| ProductsScreen.ListingCategoriesOffered | src/app/produtos/page.tsx:9-75 | every listed product's category is one of the filter's options other than "Todos" |
| Dashboard.Greeting | src/app/page.tsx:101-106 | "Bom dia" exactly before noon, "Boa noite" exactly from 18 on, "Boa tarde" in between |
| Dashboard.GreetingMovesForward | src/app/page.tsx:101-106 | as the hour advances the greeting only moves forward through the day |
| Dashboard.GreetingCoversDay | src/app/page.tsx:101-106 | over a day the afternoon greeting is used exactly from 12 to 17 |
| Dashboard.FormattedDateRoundTrip | src/app/page.tsx:109-135 | the date line read back gives the weekday, day, month and year it was made from |
| Dashboard.FormattedDateInjective | src/app/page.tsx:109-135 | different dates give different date lines |
| Dashboard.TablesAreWellFormed | src/app/page.tsx:111-134 | the weekday and month tables have no repeated name, no comma in a weekday and no space in a month |
| Dashboard.MathMax | src/app/page.tsx:98 | the maximum is one of the values and no value exceeds it; no value gives no maximum |
| Dashboard.MaxOrders | src/app/page.tsx:98 | no month has more orders and some month has exactly as many |
| Dashboard.MaxOrdersCharacterized | src/app/page.tsx:98 | any value reached by a month and exceeded by none is the maximum |
| Dashboard.ChartMaximum | src/app/page.tsx:45-58 | the chart's bars are scaled to November's 400 orders |

## Left out

- Transport: `fetch`, the shared HTTP client behind the services (`src/services/api` is not part of this model) and its interceptors. A call is the request it would make, and its settled reply is a parameter.
- Navigation and scheduling: `router.push`, `router.replace`, `window.location.href`, `setTimeout` and React effects are returned as effects, or modelled as discrete ticks and timer events. Concurrency and interleaving of re-renders are not modelled.
- Clearing a pending timer when the countdown changes is not modelled: a tick fires only while time is left, which is what the cleanup guarantees.
- JSON: the serialisation of the user in local storage is taken as lossless, and a corrupt stored user (a throwing `JSON.parse`) is not modelled. Request bodies are maps of JSON scalars.
- `encodeURIComponent` and query-string encoding: redirect targets are the decoded path. Documents and phone numbers are put into lookup paths unencoded, as the code does.
- `parseFloat(value) || 0` on the price input: the form's price is a number that is never NaN.
- `Intl.NumberFormat` currency formatting, the bar heights of the chart (floating point), and `new Date()`: the calendar fields and the hour are inputs.
- The loading flags of the dialogs and of data loading, the `disabled` states of inputs, and all JSX markup, icons and class names.
- `getStatusBadgeClass` on the staff screen: presentation only.
- The tables and orders screens and the root layout: static mock data and presentation.
- Ticking down `loading` on the recovery screens while a call is pending: every handler is one step, so loading is observed only when it ends.
- Text.Upper: maps only ASCII and Latin-1 letters (and U+00B5, U+00FF) character by character. Letters outside Latin-1 and multi-character mappings such as "ß" to "SS" keep their original character.
- Recovery.CodeCheck: lengths are counted in characters, while JavaScript counts UTF-16 code units. The two differ only for characters outside the Basic Multilingual Plane, which the six-slot code input does not produce.
- Session.SaveAuth: the token is written into the cookie text unencoded. The model reads the value back the way section 5.2 of RFC 6265 describes (cut at the first `;`, spaces and tabs trimmed). It does not model what an injected `;` does beyond that (extra attributes such as `domain=` or `max-age=`), nor browsers rejecting a cookie for control characters.
- Routing.Middleware: the matcher is modelled as a prefix test on the path. The framework's own handling around it (locale prefixes, a trailing slash, `_next/data` requests) is not part of this model.
- Api.ErrorMessage: a body's `message` is a JSON value whose numbers are integers; fractional and exponent numbers are not modelled. Integers are taken exactly: JavaScript's rounding of integers above 2^53 to a double, and its exponent form for values of 1e21 and more ("1e+21"), are not modelled. An array `message` stands for the empty text, whatever its elements; JavaScript would join them. The `null` body's TypeError text is the V8 wording.
- StaffScreen.InitialsAreFirstWordStarts: `n[0]` and `slice(0, 2)` count UTF-16 code units, while the model counts characters. A name starting with a character outside the Basic Multilingual Plane gives a lone surrogate in the browser, which the model cannot produce. StaffScreen.InitialsOfTwoWords inherits this.
- Recovery.PasswordCheck: counts characters in the same way, so a password of astral characters may be counted shorter than in the browser.

# SmartBus admin client — a Dafny model

SmartBus admin is a thin React client for school-bus administration. There
are two kinds of user:

- a **super administrator** manages schools, school administrators and buses;
- a **school administrator** manages the routes, buses and children of their
  own school.

The business logic lives behind an HTTP API. The client itself decides four
things:

- how the **session store** (a zustand store of six fields) moves between
  signed out, bootstrapping and signed in;
- which page a session may see: the **role-gated routing decisions** of the
  entry page, the two dashboards and the auth provider;
- how **dialogs and management screens** turn form text into request bodies
  and read back stored records. This covers the `"none"` select sentinel,
  comma-separated route stops, and a bus capacity read with `parseInt` and
  printed with `toString`;
- how each request's **outcome** is classified: success, the 401 sign-in-again
  path, or an error message with its fallback text.

This project models those decisions in Dafny 4.11 and proves properties of
them.

## How it is modelled

- **Modules.** There is one module per source file. Shared helper modules:
  - `Wrappers` holds `Option`.
  - `JsText` holds the JavaScript built-ins the code relies on: truthiness,
    `||` fallbacks, `trim`, `split`, `join`, `parseInt` with no radix, and
    `Number#toString` for integers.
  - `Types` holds the record shapes.
  - `Http` holds the response model described below.
  - `Navigation` holds the emitted effects and the three page paths.
  - `Submission` holds the validate-then-classify pattern the dialogs share.
- **Responses are inputs.** Every network response is an `Http.Response<T>`.
  It is either a status with the body's `message` and payload, or an
  exception. A response is ok when its status is in 200..299. A body that is
  not JSON is an exception only where the handler calls `response.json()` on
  it. A handler that does not read the body sees a `Response` with no
  message, so a non-JSON success is still a success there.
- **Browser effects are outputs.** `alert`, `window.location.href`,
  `router.push`/`replace`, the parent's `setOpen(false)`/`onSuccess`/`onRefresh`
  callbacks and a component's refetch of its own lists are `Navigation.Effect`
  values a method returns. `confirm` is a boolean input.
- **State.** State the source mutates is a class with `modifies` clauses:
  - the store;
  - the landing page's `hasRedirected` ref;
  - each dialog's, card's and page's `useState` variables.

  Every method states its whole new state. The store's state is
  `Store.State()`, a `Session` value.
- **Async handlers.** A handler with an in-flight flag (`isLoading`,
  `isDeleting`, the store's bootstrap) is split at its `await`:
  - the part before it (`Submit`, `Begin…`);
  - the part after it (`Settle`, `Finish…`).

  Handlers without such a flag are one method that takes the response as an
  argument.
- **Decisions are functions.** The guards, render choices, encoders and
  classifications are pure functions on a `Session` or on form values.

## Model

| member | source | states |
|---|---|---|
| JsText.TrimStart | components/RouteManagement.tsx:150 | removes exactly the leading ECMAScript white space and line terminators: the result is a suffix, everything dropped is blank, and the result starts with a non-blank |
| JsText.TrimEnd | components/RouteManagement.tsx:150 | removes exactly the trailing blanks: the result is a prefix, everything dropped is blank, and it ends with a non-blank |
| JsText.Trim | components/RouteManagement.tsx:150 | `String#trim` gives the infix of its input between the leading and the trailing blank runs: everything cut off is blank, nothing else is removed, and no blank is left at either end |
| JsText.TrimOfTrimmed | components/RouteManagement.tsx:150 | trimming an already trimmed string, or that string after one leading blank, gives it back |
| JsText.Split | components/RouteManagement.tsx:150 | `split(",")` gives one piece more than there are separators, no piece holds the separator, and joining the pieces with it restores the input |
| JsText.SplitWithoutSeparator | components/RouteManagement.tsx:150 | a string without the separator splits into itself alone |
| JsText.SplitAfterFirstSeparator | components/RouteManagement.tsx:150 | splitting at the first separator peels off the first piece |
| JsText.SplitOfJoin | components/RouteManagement.tsx:260 | splitting a non-empty list joined with a single-character separator it never contains gives the list back |
| JsText.Blanked | components/RouteManagement.tsx:260 | each piece with one blank in front, in order |
| JsText.SplitOfCommaBlankJoin | components/RouteManagement.tsx:260 | splitting `join(", ")` on "," gives the first piece and then every later piece with one leading blank |
| JsText.TrimEachOfCommaBlankSplit | components/RouteManagement.tsx:196-198 | for comma-free, trimmed pieces, trimming each piece of the split of their `join(", ")` gives them back |
| JsText.Or | components/CreateSchoolAdmin.tsx:94 | `s` or-ed with a fallback string is the value when it is truthy and the fallback otherwise, so it is empty only when both are |
| JsText.OrNull | store/authStore.ts:38 | `s` or-ed with null keeps a truthy value and replaces anything else by null: never the empty string, same truthiness |
| JsText.DigitPrefix | components/BusManagement.tsx:116 | the longest prefix of digits in the radix: all of it digits, and the next character (if any) not one |
| JsText.ParseUnsigned | components/BusManagement.tsx:116 | an unsigned numeral is never negative; it is `NaN` unless it starts with a digit, a number when it starts with a digit other than a "0x" prefix, and `NaN` for "0x" with no hex digit after it |
| JsText.ParseNumeral | components/BusManagement.tsx:116 | after the blanks: an empty text or one starting with neither a sign nor a digit is `NaN`, and only a leading minus gives a negative number |
| JsText.ParseInt | components/BusManagement.tsx:116 | `parseInt` of a blank text is `NaN`, and a negative result needs a minus as the first non-blank character |
| JsText.DigitPrefixOfDigits | components/BusManagement.tsx:116 | a string of decimal digits is its own longest decimal prefix |
| JsText.UnsignedOfDigits | components/BusManagement.tsx:116 | a string of decimal digits, read with no radix prefix, is its positional value |
| JsText.NegativeNumeral | components/BusManagement.tsx:116 | after a minus sign `parseInt` reads an unsigned numeral and negates it |
| JsText.ParseNumeralOfDigits | components/BusManagement.tsx:116 | an unsigned decimal numeral is read as its value |
| JsText.ParseNumeralOfNegativeDigits | components/BusManagement.tsx:116 | a minus sign followed by decimal digits is read as the negated value |
| JsText.ParseIntOfEmpty | components/CreateBus.tsx:51 | `parseInt("")` is `NaN` |
| JsText.ParseIntSkipsBlanks | components/BusManagement.tsx:116 | `parseInt` ignores any number of leading blanks |
| JsText.TrimStartSkipsBlanks | components/BusManagement.tsx:116 | trimming the start ignores any number of leading blanks |
| JsText.Decimal | components/BusManagement.tsx:193 | the decimal digits of a natural number: at least one digit, a leading zero only for 0, one digit exactly below 10 |
| JsText.NumberToString | components/BusManagement.tsx:193 | `n.toString()` starts with a minus exactly for a negative n, and is otherwise made of at least one decimal digit |
| JsText.ValueOfDecimal | components/BusManagement.tsx:193 | reading back the decimal digits of n gives n |
| JsText.ParseIntOfNumberToString | components/BusManagement.tsx:193 | `parseInt(n.toString())` is n for every integer n, negative ones included |
| Http.ListAfterFetch | components/ChildManagement.tsx:48-55 | a list fetch changes nothing without a token or on a failure, and replaces the list by `data`, or by [] when `data` is missing, on success |
| Navigation.HomeFor | app/page.tsx:25 | "/dashboard" exactly for a super administrator, "/school-admin/dashboard" exactly for a school administrator, never the entry page |
| Submission.Precheck | components/CreateSchool.tsx:30-38 | a dialog sends exactly when every required field is non-empty and a token is present; missing fields are reported before a missing token, each with its own text |
| Submission.Classify | components/CreateSchool.tsx:58-78 | saved exactly on an ok status, sign-in-again exactly on 401 where the handler checks it, the caught text for an exception, and the body's message or the fallback otherwise |
| Submission.DialogOutcome | components/CreateSchool.tsx:58-78 | in a dialog: saved exactly on an ok status, sign-in-again exactly on 401, an exception blamed on the connection, otherwise the body's message or the fallback |
| Submission.ManagementOutcome | components/BusManagement.tsx:121-131 | management handlers: saved exactly when ok, never sign-in-again, and a failure shows the fallback for an exception, the body's message or the fallback for a response |
| Submission.ThrowingOutcome | components/sign-in-card.tsx:53-74 | the auth cards throw on a non-ok response: its message or the fallback; an exception shows its own message or the non-Error text |
| Submission.EncodeChoice | components/BusManagement.tsx:117 | the sentinel "none" is omitted from the body and every other select value is sent unchanged |
| Submission.PrefillChoice | components/BusManagement.tsx:197 | an edit select starts at the stored id when it is non-empty, and at "none" otherwise |
| Submission.ChoiceRoundTrip | components/ChildManagement.tsx:221-222 | prefilling a select and sending it unchanged gives back the stored id exactly when that id is neither "" nor "none" |
| Submission.DialogEffects | components/CreateSchool.tsx:58-72 | a dialog always alerts first and only once, closes and notifies its parent exactly on success, leaves for "/" exactly on 401, and on any other failure only alerts |
| Submission.DeleteEffects | components/BusManagement.tsx:168-187 | a management delete needs a token and the confirmation; success gives the component's own effects; a failure one alert with the body's message or the fallback, the fallback for an exception |
| Submission.DialogLeavesOnlyOn401 | components/CreateSchool.tsx:69-71 | a dialog leaves for "/" exactly on a 401 response and closes exactly on success |
| AuthStore.PersistedSubset | store/authStore.ts:116-121 | the persisted record does not depend on `isLoading` or `isInitialized`; a reload restores the four persisted fields with both flags false |
| AuthStore.Rehydrate | store/authStore.ts:116-121 | a reloaded session persists the same record again, is neither initialised nor loading, and keeps the invariant exactly when the record did |
| AuthStore.Store.constructor | store/authStore.ts:26-31 | the store starts signed out, not loading, not initialised, with no tokens |
| AuthStore.Store.Rehydrated | store/authStore.ts:116-121 | a reloaded store is a fresh store with the persisted record copied over it |
| AuthStore.Store.SetUser | store/authStore.ts:32 | sets the user and makes the session authenticated exactly when a user is given; nothing else changes |
| AuthStore.Store.SetAuthenticated | store/authStore.ts:33 | only `isAuthenticated` changes |
| AuthStore.Store.SetLoading | store/authStore.ts:34 | only `isLoading` changes |
| AuthStore.Store.SetInitialized | store/authStore.ts:35 | only `isInitialized` changes |
| AuthStore.Store.SetTokens | store/authStore.ts:36-39 | only the two tokens change (a missing or empty refresh token is stored as null), and the session invariant is kept |
| AuthStore.Store.Login | store/authStore.ts:40-45 | sets user, both tokens and `isAuthenticated`, keeps both flags, and establishes the invariant |
| AuthStore.Store.Logout | store/authStore.ts:46-53 | clears user and tokens and `isAuthenticated`, keeps both flags, and establishes the invariant |
| AuthStore.Store.BeginInitialize | store/authStore.ts:54-68 | already initialised: nothing; no or empty token: only `isInitialized` set; otherwise `isLoading` set and the token sent |
| AuthStore.Store.CompleteInitialize | store/authStore.ts:80-111 | an accepted token installs the server's user and keeps the tokens; a rejection or an exception clears the session; the bootstrap ends initialised and not loading |
| AuthStore.Store.InitializeAuth | store/authStore.ts:54-111 | one bootstrap run: which request it makes, the four outcomes, the session invariant kept on every path, and initialised at the end |
| AuthStore.SetUserWithoutToken | store/authStore.ts:32 | `setUser` on a fresh store gives an authenticated session without a token, breaking the invariant |
| AuthStore.AuthenticatedWithoutUser | store/authStore.ts:33 | `setAuthenticated(true)` on a fresh store breaks the invariant |
| AuthStore.OverlappingBootstraps | store/authStore.ts:55-68 | two bootstraps started before the first answer both send the stored token: there is no single-flight |
| AuthStore.ReloadAfterLogin | store/authStore.ts:40-89 | sign in, persist, reload and bootstrap against a server that accepts: the same user and tokens come back, initialised |
| AuthStore.ReloadWithRejectedToken | store/authStore.ts:90-99 | a reload whose stored token the server rejects ends signed out and no longer bootstrapping |
| LandingPage.EffectStep | app/page.tsx:14-29 | the entry page's effect: a session that is not signed in clears the latch; an initialised signed-in session with the latch clear sets it and pushes the role's dashboard; otherwise nothing; it pushes exactly in that case |
| LandingPage.InitializedSomewhereSplit | app/page.tsx:22 | a trace is initialised somewhere exactly when its head is or its tail is |
| LandingPage.AtMostOnePushPerSignIn | app/page.tsx:16-28 | while the session stays signed in, a set latch suppresses every push, and a clear latch gives exactly one push if the session is initialised at some point and none otherwise |
| LandingPage.Landing.RunEffect | app/page.tsx:14-29 | the page's `hasRedirected` ref and its push follow the effect step |
| LandingPage.Render | app/page.tsx:31-46 | "Initializing" exactly while bootstrapping, then "Redirecting" exactly for a signed-in session, else the auth screen |
| LandingPage.RedirectingPushes | app/page.tsx:22-38 | whenever the redirect spinner shows with the latch clear, the effect pushes the role's dashboard |
| AuthProvider.ProviderAndPagesAgree | components/AuthProvider.tsx:14-29 | the provider hides the page exactly when the entry page and the super-admin dashboard show their own initialising view, and starts the bootstrap exactly while both dashboard guards wait |
| AuthProvider.Mount | components/AuthProvider.tsx:14-18 | an initialised store is left alone; otherwise the bootstrap runs, keeps the invariant or establishes it when a request went out, a store that was not loading then shows the children, and the effect does not fire again |
| AuthProvider.PageLoad | components/AuthProvider.tsx:11-29 | a page load requests `/auth/me` exactly when a token was persisted, and always ends showing the children |
| SuperAdminDashboard.Guard | app/dashboard/page.tsx:37-59 | wait exactly while not initialised; replace with "/" exactly when not signed in; replace with the school-admin dashboard exactly for another role; fetch exactly for a super administrator |
| SuperAdminDashboard.Render | app/dashboard/page.tsx:61-151 | bootstrap gate first, then the loading flag, then a non-empty error, then the content |
| SuperAdminDashboard.Failure | app/dashboard/page.tsx:90-132 | a failed response leaves "Failed to fetch X: <status>", an exception its own message or the fallback |
| SuperAdminDashboard.FailureNamesStatus | app/dashboard/page.tsx:91 | the status can be read back from the error text after its prefix |
| SuperAdminDashboard.RequestsSent | app/dashboard/page.tsx:75-117 | the requests go out in order (schools, admins, stats), none without a token, each only after the previous one succeeded |
| SuperAdminDashboard.FetchError | app/dashboard/page.tsx:75-132 | no error exactly when all three succeed; otherwise the missing-token text or the first failure's text |
| SuperAdminDashboard.Page.FetchData | app/dashboard/page.tsx:70-136 | the requests sent, the error, `loading` false on every path, and each list replaced only by its own successful response (a missing `data` is empty, zero totals) |
| SchoolAdminDashboard.Guard | app/school-admin/dashboard/page.tsx:49-65 | the mirror of the super-admin guard: fetch exactly for a signed-in school administrator, the super-admin dashboard for another role |
| SchoolAdminDashboard.SchoolInfoOf | app/school-admin/dashboard/page.tsx:92-96 | each school field is the server's when present and non-empty, else its own "… Not Available" text; none is blank |
| SchoolAdminDashboard.StatsError | app/school-admin/dashboard/page.tsx:76-126 | no error exactly with a token, an ok response and `success`; otherwise the missing-token text, "HTTP error! status: N" or the body's message, the page's fallback, or the exception's message |
| SchoolAdminDashboard.Toggle | app/school-admin/dashboard/page.tsx:137-139 | a click closes the open section exactly when it is the one clicked, and otherwise opens the clicked one |
| SchoolAdminDashboard.ToggleTwice | app/school-admin/dashboard/page.tsx:137-139 | two clicks on one section restore the state exactly when it was closed or showed that section |
| SchoolAdminDashboard.PanelFor | app/school-admin/dashboard/page.tsx:141-156 | exactly the five section names select a panel, each the one with that name |
| SchoolAdminDashboard.SectionName | app/school-admin/dashboard/page.tsx:332-392 | each section button sets one of the five names the panel switch recognises |
| SchoolAdminDashboard.PanelForSectionName | app/school-admin/dashboard/page.tsx:141-156 | each panel is reached by its own name |
| SchoolAdminDashboard.Page.FetchData | app/school-admin/dashboard/page.tsx:76-130 | a request exactly with a token, the error, `loading` false on every path, and the data replaced only on success |
| SchoolAdminDashboard.Page.HandleSectionClick | app/school-admin/dashboard/page.tsx:137-139 | the open section toggles and nothing else changes |
| SchoolAdminDashboard.Page.CloseSection | app/school-admin/dashboard/page.tsx:413-416 | the "Back to Dashboard" button closes the open section and nothing else changes |
| Routing.ExactlyOneDashboardFetches | app/dashboard/page.tsx:53-58 | a signed-in, initialised session is fetched by exactly one dashboard, its role's |
| Routing.RoleRedirectsSettle | app/school-admin/dashboard/page.tsx:59-64 | a dashboard only sends the browser to "/" or to the other dashboard, whose guard then fetches: no redirect loop |
| Routing.LandingTargetFetches | app/page.tsx:25-27 | the dashboard the entry page pushes to fetches for the session that caused the push |
| RouteManagement.EncodeStops | components/RouteManagement.tsx:149-151 | an empty stops text is omitted; otherwise one stop per comma-separated piece, in order, each the trimmed piece, so each is trimmed and comma-free |
| RouteManagement.TrimIsInfix | components/RouteManagement.tsx:150 | trimming only removes characters |
| RouteManagement.StopsRoundTrip | components/RouteManagement.tsx:260 | stops printed into the form and encoded again come back, for any trimmed, comma-free list other than [] and [""] |
| RouteManagement.EmptyStopsAreDropped | components/RouteManagement.tsx:260 | the lists [] and [""] print as "" and so are sent as no stops |
| RouteManagement.Prefill | components/RouteManagement.tsx:255-264 | the edit form: missing description, school and school admin as "", missing stops as "", a missing bus as "none" |
| RouteManagement.UntouchedEditResendsRoute | components/RouteManagement.tsx:194-199 | opening a route and saving it untouched sends its own stops and bus back |
| RouteManagement.Payload | components/RouteManagement.tsx:147-153 | the body keeps the form's text fields, omits the stops exactly for an empty text, else sends `EncodeStops` of it (one trimmed piece per comma-separated piece) and the bus exactly for "none" |
| RouteManagement.Stamped | components/RouteManagement.tsx:133-135 | stamping puts the user's school and id into the body and changes nothing else in it |
| RouteManagement.Manager.FetchRoutes | components/RouteManagement.tsx:73-87 | the route list after a fetch, others untouched |
| RouteManagement.Manager.FetchBuses | components/RouteManagement.tsx:89-102 | the bus list after a fetch, others untouched |
| RouteManagement.Manager.HandleCreate | components/RouteManagement.tsx:131-179 | refused without a token or a school; otherwise the form is stamped with the user's school and id and sent; success alerts, closes, blanks the form and reloads; failure alerts and keeps the stamped form |
| RouteManagement.Manager.HandleEdit | components/RouteManagement.tsx:181-226 | refused without a token, a selected route or a school; success closes, drops the selection, blanks the form and reloads; failure alerts |
| RouteManagement.Manager.OpenEditDialog | components/RouteManagement.tsx:253-266 | selects the route, prefills the form from it and opens the dialog |
| RouteManagement.DeleteEffects | components/RouteManagement.tsx:228-251 | sent only with a token and confirmation; success reloads without an alert; failure alerts |
| BusManagement.Prefill | components/BusManagement.tsx:189-197 | the edit form: capacity printed, model or "", driver or "none" |
| BusManagement.UntouchedEditResendsBus | components/BusManagement.tsx:148-149 | opening a bus and saving it untouched sends its capacity back, and its driver exactly unless stored as "" or "none" |
| BusManagement.CreateResetSendsEmptyDriver | components/BusManagement.tsx:123 | after a successful create the next untouched create sends driverId "", while the initial form sends none |
| BusManagement.Payload | components/BusManagement.tsx:114-118 | the body keeps the text fields, sends the capacity as `parseInt` reads it (a blank text as null), and omits the driver exactly for "none" |
| BusManagement.CreatePicker | components/BusManagement.tsx:411-413 | the create dialog offers exactly the drivers with no assigned bus, never more than the list |
| BusManagement.CreatePickerKeepsOrder | components/BusManagement.tsx:411-413 | the filter keeps list order: the picker of a concatenation is the pickers of the parts, concatenated |
| BusManagement.EditPickerCoversCreate | components/BusManagement.tsx:498 | the edit dialog, which offers every driver, offers all that create does, and the same list exactly when no driver has a bus |
| BusManagement.NoneAssignedKeepsAll | components/BusManagement.tsx:411-413 | with no assigned driver the create picker keeps the whole list |
| BusManagement.Manager.FetchBuses | components/BusManagement.tsx:49-61 | the bus list after a fetch, others untouched |
| BusManagement.Manager.FetchDrivers | components/BusManagement.tsx:64-76 | the driver list after a fetch, others untouched |
| BusManagement.Manager.HandleCreate | components/BusManagement.tsx:103-133 | needs a token; success closes, resets the form with driver "" and reloads; failure alerts |
| BusManagement.Manager.HandleEdit | components/BusManagement.tsx:135-166 | needs a token and a selected bus; success closes, drops the selection, resets with driver "none" and reloads; failure alerts |
| BusManagement.Manager.OpenEditDialog | components/BusManagement.tsx:189-199 | selects the bus, prefills the form and opens the dialog |
| BusManagement.DeleteEffects | components/BusManagement.tsx:168-187 | sent only with a token and confirmation; success reloads; failure alerts |
| ChildManagement.Prefill | components/ChildManagement.tsx:213-223 | the edit form copies the five text fields and maps a missing bus or route to "none" |
| ChildManagement.UntouchedEditResendsChild | components/ChildManagement.tsx:166-167 | opening a child and saving it untouched sends its own record back exactly when neither id is stored as "" or "none" |
| ChildManagement.Payload | components/ChildManagement.tsx:127-131 | the body keeps the five text fields and omits the bus, and the route, exactly when its select shows "none" |
| ChildManagement.Manager.FetchChildren | components/ChildManagement.tsx:47-59 | the child list after a fetch, others untouched |
| ChildManagement.Manager.HandleCreate | components/ChildManagement.tsx:116-151 | needs a token; success closes, alerts, blanks the form (both selects "none") and reloads; failure alerts |
| ChildManagement.Manager.HandleEdit | components/ChildManagement.tsx:153-189 | needs a token and a selected child; success closes, drops the selection, alerts, blanks the form and reloads; failure alerts |
| ChildManagement.Manager.OpenEditDialog | components/ChildManagement.tsx:213-225 | selects the child, prefills the form and opens the dialog |
| ChildManagement.DeleteEffects | components/ChildManagement.tsx:191-211 | sent only with a token and confirmation; success alerts and reloads; failure alerts |
| SignInCard.EndpointFor | components/sign-in-card.tsx:37-39 | "/super-admin/login" exactly for a super administrator, "/school-admin/login" exactly for a school administrator |
| SignInCard.Card.Submit | components/sign-in-card.tsx:31-51 | sets `isLoading` and posts email and password to the role's endpoint |
| SignInCard.Card.Settle | components/sign-in-card.tsx:53-76 | success signs the store in with the returned user and tokens and goes to the chosen role's dashboard; failure leaves the store and alerts; `isLoading` ends false |
| SignInCard.RedirectFollowsChosenRole | components/sign-in-card.tsx:69 | after sign-in the dashboard reached fetches exactly when the server's role is the role chosen on the screen |
| SignUpCard.Card.Submit | components/sign-up-card.tsx:36-52 | any empty field alerts and sends nothing, `isLoading` untouched; otherwise `isLoading` is set and the four fields are posted |
| SignUpCard.Card.Settle | components/sign-up-card.tsx:57-86 | success signs in, clears the four fields and both toggles and goes to "/dashboard"; failure leaves everything and alerts; `isLoading` ends false |
| AuthScreen.View | components/auth-screen.tsx:15-89 | the role picker exactly in sign-in, the school-admin notice exactly in sign-in with that role, and the card of the flow |
| AuthScreen.State.constructor | components/auth-screen.tsx:9-10 | starts in sign-in with the super administrator selected |
| AuthScreen.State.SelectRole | components/auth-screen.tsx:26-47 | a radio button selects the role |
| AuthScreen.State.ShowSignUp | components/auth-screen.tsx:66-69 | switches to sign-up and forces the super administrator role |
| AuthScreen.State.CardSignUp | components/sign-in-card.tsx:128-133 | the sign-in card's "Sign up" link switches to sign-up and keeps the selected role |
| AuthScreen.State.ShowSignIn | components/auth-screen.tsx:78-79 | the screen's "Sign in" button, or the sign-up card's link (components/sign-up-card.tsx:175), switches to sign-in and keeps the role |
| AuthScreen.SignUpAndBack | components/auth-screen.tsx:66-79 | going to sign-up through the screen's button and back leaves the super administrator selected, whatever was picked before |
| AuthScreen.CardSignUpAndBack | components/sign-in-card.tsx:128-133 | going to sign-up through the sign-in card's link and back shows the card and notice of the role picked before, the school administrator's included |
| CreateSchool.Dialog.Submit | components/CreateSchool.tsx:28-55 | the precheck over the three fields; sent exactly when it passes, with the three fields as typed, `isLoading` set exactly then |
| CreateSchool.Dialog.Settle | components/CreateSchool.tsx:58-81 | the dialog effects of the outcome, the fields cleared exactly on success, `isLoading` false |
| CreateSchoolAdmin.TypedFormSubmits | components/CreateSchoolAdmin.tsx:40-71 | a typed form is sent exactly when name, email, password and school are non-empty and there is a token, whatever the contact number and address, and then as typed |
| CreateSchoolAdmin.Dialog.Submit | components/CreateSchoolAdmin.tsx:40-71 | the precheck over name, email, password and school; the six fields posted when sent |
| CreateSchoolAdmin.Dialog.Settle | components/CreateSchoolAdmin.tsx:75-102 | the dialog effects of the outcome, all six fields cleared exactly on success, `isLoading` false |
| EditSchool.Dialog.Prefill | components/EditSchool.tsx:36-42 | a given school overwrites the three fields; no school leaves them |
| EditSchool.Dialog.Submit | components/EditSchool.tsx:44-72 | only the name is required, then the token; sent exactly then, with the three fields under the school's id |
| EditSchool.Dialog.Settle | components/EditSchool.tsx:74-85 | the dialog effects of the outcome, with the fields kept on every path |
| EditSchool.PrefilledSchoolSubmits | components/EditSchool.tsx:36-72 | a school opened and saved untouched is sent exactly when it has a name and there is a token, as its own three fields under its own id |
| EditSchoolAdmin.Dialog.Prefill | components/EditSchoolAdmin.tsx:39-47 | a given account overwrites the five fields, a missing phone or address as "" |
| EditSchoolAdmin.Dialog.FetchSchools | components/EditSchoolAdmin.tsx:50-75 | the school list is requested exactly while the dialog is open and replaced only by an ok response |
| EditSchoolAdmin.Dialog.Submit | components/EditSchoolAdmin.tsx:77-107 | the precheck over name, email and school; the five fields sent under the account's id |
| EditSchoolAdmin.Dialog.Settle | components/EditSchoolAdmin.tsx:109-127 | the dialog effects of the outcome, fields kept, `isLoading` false |
| EditSchoolAdmin.PrefilledAccountSubmits | components/EditSchoolAdmin.tsx:39-107 | an account opened and saved untouched is sent exactly when its name, email and school are non-empty and there is a token, as its own fields (missing phone or address as "") under its own id |
| CreateBus.Dialog.Submit | components/CreateBus.tsx:27-52 | the precheck over bus number and capacity; the capacity sent as `parseInt` of its text |
| CreateBus.Dialog.Settle | components/CreateBus.tsx:56-78 | the dialog effects of the outcome, both fields cleared exactly on success, `isLoading` false |
| CreateBus.CapacityParsing | components/CreateBus.tsx:51 | a capacity typed as a decimal numeral after any blanks is sent as that number |
| SchoolAdminList.RowFor | components/SchoolAdminList.tsx:94-97 | a row's delete button is disabled and reads "Deleting..." exactly while that account is being deleted |
| SchoolAdminList.Render | components/SchoolAdminList.tsx:51-101 | the empty notice exactly for no accounts, otherwise one row per account in order |
| SchoolAdminList.AtMostOneRowDeleting | components/SchoolAdminList.tsx:94 | with distinct ids at most one row is disabled, and none when nothing is being deleted |
| SchoolAdminList.DeleteOutcome | components/SchoolAdminList.tsx:36-45 | saved exactly when ok, no 401 path, an exception blamed on the connection, otherwise the message or the fallback |
| SchoolAdminList.List.BeginDelete | components/SchoolAdminList.tsx:18-23 | a declined confirmation changes nothing; otherwise the row is marked and the request sent |
| SchoolAdminList.List.FinishDelete | components/SchoolAdminList.tsx:36-48 | success alerts and refreshes, failure alerts; the mark is cleared on every path |
| SchoolAdminList.List.StartEdit | components/SchoolAdminList.tsx:86 | the Edit button opens the dialog for that account |
| SchoolAdminList.List.CloseEdit | components/SchoolAdminList.tsx:109 | closing the dialog drops the account |
| SchoolAdminList.List.EditSaved | components/SchoolAdminList.tsx:110-113 | a saved edit refreshes the list, then drops the account |
| SchoolAdminList.OverlappingDeletes | components/SchoolAdminList.tsx:23-47 | two overlapping deletes share one marker: the first to finish re-enables the other row while its request is in flight |

## Behaviour of the code worth knowing


- **No single-flight bootstrap.** The bootstrap guards only on
  `isInitialized`, so two calls in flight both ask `/auth/me`
  (`AuthStore.OverlappingBootstraps`).
- **Level-triggered dashboard guards.** The guards have no latch; they re-run
  whenever the session changes. Only the entry page redirects at most once
  per sign-in.
- **Sign-in redirect.** After sign-in the card redirects by the role chosen
  on the screen, not by the role the server returns
  (`SignInCard.RedirectFollowsChosenRole`).
- **Bus create reset.** A successful bus create resets the driver select to
  `""` rather than to `"none"`, so the next untouched create sends an empty
  driver id (`BusManagement.CreateResetSendsEmptyDriver`).
- **Two ways into sign-up.** Only the screen's "Sign up as Super Admin" button
  forces the super administrator role. The sign-in card's own "Sign up" link
  changes only the flow, so a school administrator picked before is still
  selected on the way back (`AuthScreen.CardSignUpAndBack`).

## Left out

- HTTP, JSON, the API base URL and cookies: every response is an input value,
  and a body that is not JSON is an exception where the handler reads it.
- lib/api.ts: its no-token throw is not reached in the modelled flows, since
  the school administrator's dashboard tests the token from its render
  first (lib/api.ts reads the live store, which can differ). Only its error text
  ("HTTP error! status: N") is modelled, in `SchoolAdminDashboard.StatsError`.
- Persistence: localStorage and the persist middleware are left out. Only
  `partialize` and rehydration, as copying the persisted record, are modelled.
- Concurrency:
  - `Promise.all` in the management screens (the initial loads and the
    refetches) is the single `Reload` effect, which does not record which
    lists are refetched or in what order (the child screen's create and edit
    refetch children then parents, its delete children only);
  - responses that arrive after unmount or out of order are not modelled;
  - the interleaving of two bootstraps is shown only by
    `AuthStore.OverlappingBootstraps`.
- React rendering, styling and UI components. The views are modelled only
  where they make a decision: the render gates, the dashboard's section panel,
  the auth screen, and the row buttons.
- `alert`, `confirm` and `window.location`: outputs, or a boolean input for
  `confirm`.
- Numbers are unbounded integers, with no floating point:
  - a bus capacity, a status code and the statistics are whole numbers;
  - `parseInt` is modelled for decimal and `0x` numerals only, up to the first
    non-digit; `NaN` is None and is sent as null;
  - `Number#toString` is modelled for integers below 1e21 in magnitude;
    from 1e21 on JavaScript prints exponent notation ("1e+21"), which the
    model does not.
- The browser's constraint validation. Most form inputs carry `required`,
  the bus capacities are `type="number" min="1"` and the email fields are
  `type="email"`. The browser blocks a submit that breaks one of these
  before any handler runs. The handlers (`Manager.HandleCreate`,
  `Manager.HandleEdit`, `SignInCard.Card.Submit` and the dialogs' `Submit`)
  are modelled on any form text, blanks included, so their "sends exactly
  when" contracts leave out that browser condition.
- Dates and `toLocaleDateString`.
- Display-only components and components with no client-side encoding rule:
  DriverManagement, ParentManagement, SchoolList, BusList, DashboardStats,
  Header, WelcomePage, Footer. The stats fetches of the management screens
  are left out for the same reason.
- Props the code assumes are present:
  - a login body without `user` or `access_token` is not modelled;
  - the edit dialogs' record props are always passed in;
  - a school-admin statistics body with `success` but no `data` (which
    throws a TypeError) is not modelled.
- A management screen's `isLoading` spinner flag is not modelled.
- The dashboards bind `fetchData` after an early return. The guard could
  reach the unbound name only while the store is initialised and loading at
  once. Among the store's operations, only the raw `setLoading` and
  `setInitialized` setters produce that state, so it is not modelled.
- The school column of the school-admin list is left out, because
  `admin.school` is not part of the modelled account record.
- SignInCard.EndpointFor: the source sends every role other than the super
  administrator to the school login. The model has only the two roles, so
  that is the school administrator.

# YuvaKart storefront client, modelled in Dafny

This project models the client-side core of the YuvaKart e-commerce storefront, a Next.js application. The core is:

- `ApiService` (`src/lib/api.ts`), the data-access layer every page goes through. It has:
  - a process-wide response cache with a five-minute time-to-live;
  - the catalog reads, which fall back to fixed seed data when the REST API is unreachable;
  - the login call, which never fails and builds a demo identity instead;
  - the two error shapes shared by the other endpoints;
  - the session queries over `localStorage`.
- The decision logic of six pages:
  - registration (validation, name splitting, session write);
  - shipment creation (order id parsing, AWB number and tracking link, validation, redirect);
  - the admin dashboard (route guard, statistics load, error-to-redirect rule, derived figures, logout);
  - the customer dashboard (storage-first profile load, profile edit and save, logout);
  - the home page (carousel index arithmetic, category grid, product filter and heading);
  - the category list (icon and colour lookup with defaults, fallback description).

Values the browser supplies become parameters:
- the clock is `now`, in milliseconds;
- the result of each `fetch` is an `Outcome` (a 2xx body, a non-2xx status with its error body, or a rejected `fetch`);
- `JSON.parse`/`JSON.stringify` are a `JsonCodec` pair of functions;
- `localStorage` is a `LocalStorage` object over a `map<string, string>`.

The registration, shipment-creation, admin-dashboard and customer-dashboard pages are classes whose fields are their React state, with `navigation` recording the `router.push` targets in order. The home page and the category list change no state the model tracks: they are modelled as functions of their state (the selection, the loaded lists, the carousel index). Modules:

| module | file | models |
|---|---|---|
| `Wrappers` | wrappers.dfy | `Option`, `Result` |
| `Text` | text.dfy | `trim`, `toLowerCase`, `includes`, `split`/`join`, number printing |
| `Entities` | entities.dfy | categories, products, users, tokens, parsed JSON values |
| `Http` | http.dfy | request outcomes, the mutation and authenticated request shapes, the `Bearer` header |
| `Storage` | storage.dfy | `localStorage` |
| `Session` | session.dfy | `getCurrentUser`, `getAccessToken`, `isLoggedIn`, `logout` |
| `Auth` | auth.dfy | `login` and its demo fallback, `register`, `createOrder`, `getProfile` |
| `Catalog` | catalog.dfy | seed data, cache keys, seed filtering, `getProduct` |
| `Api` | api.dfy | the cache, `getCategories`, `getProducts`, `getAdminDashboardStats` |
| `RegisterPage` | register.dfy | `src/app/register/page.tsx` |
| `CreateShipmentPage` | shipments.dfy | `src/app/admin/shipments/create/page.tsx` |
| `AdminDashboardPage` | admin_dashboard.dfy | `src/app/admin/dashboard/page.tsx` |
| `UserDashboardPage` | user_dashboard.dfy | `src/app/dashboard/page.tsx` |
| `HomePage` | home.dfy | `src/app/page.tsx` |
| `CategoriesPage` | categories.dfy | `src/app/categories/page.tsx` |

## Model

| member | source | states |
|---|---|---|
| Http.Mutation | src/lib/api.ts:390-415 | The mutation shape succeeds exactly on a 2xx outcome and passes its body through. On a non-2xx JSON body the error text is the chosen field or else the fallback. A non-JSON body or a failed `fetch` propagates its own error. |
| Http.AuthorizationHeader | src/lib/api.ts:552-559 | A header is sent exactly when the token is a non-empty string, and it reads `Bearer <token>`. |
| Http.Authenticated | src/lib/api.ts:583-594 | Authenticated reads: the header follows the token; success iff 2xx, with the body passed through; a non-2xx gives the fixed failure text; a failed `fetch` gives its own message. |
| Storage.LocalStorage.GetItem | src/lib/api.ts:905-918 | `getItem` returns the stored value exactly for stored keys. |
| Storage.LocalStorage.SetItem | src/app/register/page.tsx:91-93 | `setItem` replaces that key's value. |
| Storage.LocalStorage.RemoveItem | src/lib/api.ts:924-929 | `removeItem` removes that key and no other. |
| Session.GetCurrentUser | src/lib/api.ts:905-913 | A non-null user comes only from a non-empty `user` entry that parses; an entry that parses is returned. Absent or unparsable text reads as `null`, never as an error. |
| Session.GetAccessToken | src/lib/api.ts:915-918 | The token is present exactly when `accessToken` is stored, and is that value. |
| Session.IsLoggedIn | src/lib/api.ts:920-922 | Logged in iff `user` parses to a truthy value and `accessToken` is a non-empty string. |
| Session.Logout | src/lib/api.ts:924-930 | Storage loses exactly `user`, `accessToken` and `refreshToken`. |
| Session.LoggedOutAfterLogout | src/lib/api.ts:905-930 | After `logout` the user is not logged in, and both the user and the token read back as absent. |
| Session.LoggedInAfterPersist | src/lib/api.ts:905-922 | Storing a user the codec round-trips and a non-empty token logs that user in. |
| Auth.AdminLoginIsCaseInsensitive | src/lib/api.ts:488 | The admin test holds exactly for five-letter identifiers spelling "admin" in any mix of letter case. |
| Auth.IsAdminLogin | src/lib/api.ts:488 | No contract of its own: `AdminLoginIsCaseInsensitive` states exactly which identifiers pass. |
| Auth.MockUser | src/lib/api.ts:489-501 | The demo user has the given username, is active, and is staff and superuser exactly when the admin test holds. |
| Auth.LoginErrorMessage | src/lib/api.ts:465-483 | The login error text is `detail`, else `message`, else `error`, else the first non-field error, else "Login failed", each taken only when non-empty. It is never empty. A non-JSON body gives "Login failed - server error". |
| Auth.Login | src/lib/api.ts:453-516 | `login` returns the server's response on success. On any failure it returns the demo response: username = identifier, staff = superuser = admin test, mock tokens, "Login successful". |
| Auth.LoginIgnoresFailureDetail | src/lib/api.ts:465-514 | Any two failures give the same login result: the computed error message never reaches the caller. |
| Auth.UpperCaseAdminIsAdmin | src/lib/api.ts:488-509 | Offline, "ADMIN" logs in as staff and superuser. |
| Auth.Register | src/lib/api.ts:430-451 | `register` succeeds iff 2xx; a JSON error body without `detail` gives "Registration failed". |
| Auth.CreateOrder | src/lib/api.ts:390-415 | `createOrder` succeeds iff 2xx; a JSON error body gives its `error` field or else "Failed to create order". |
| Auth.GetProfile | src/lib/api.ts:552-564 | `getProfile` sends the header only when given a token, succeeds iff 2xx with the body passed through, and a non-2xx gives "Failed to fetch profile". |
| Catalog.ProductsCacheKeysDistinct | src/lib/api.ts:189 | Two different non-zero category ids never share a cache key, and no category key equals `products_all` or `categories`. |
| Catalog.CategoryZeroIsUnfiltered | src/lib/api.ts:189 | Category 0 uses the unfiltered key `products_all`, like no category. |
| Catalog.ProductsCacheKey | src/lib/api.ts:189 | The key is `products_all` exactly when there is no truthy filter; a filtered key starts with `products_category_`. |
| Catalog.FilterByCategory | src/lib/api.ts:322-324 | The filtered list is never longer than the input; `FilterByCategoryMembers` and `FilterKeepsOrder` state its contents and order. |
| Catalog.FilterByCategoryMembers | src/lib/api.ts:322-324 | The filter keeps exactly the products of the category. |
| Catalog.FilterKeepsOrder | src/lib/api.ts:322-324 | Filtering distributes over concatenation, so it keeps the order of the list. |
| Catalog.FallbackProducts | src/lib/api.ts:204-327 | With a filter, the fallback holds only, and all, the seed products of that category. Without one it is the whole seed. |
| Catalog.FindProduct | src/lib/api.ts:382 | A found product is the first in the list with that id: it sits at some index with that id and no earlier product has it. Not found means no product has that id. |
| Catalog.GetProduct | src/lib/api.ts:331-388 | `getProduct` returns the server's product on success. On failure it returns a matching product of the short seed, or else fails with "Product not found". |
| Catalog.SingleProductFallbackIds | src/lib/api.ts:331-388 | Offline, `getProduct` finds exactly ids 1 to 3, although ids 4 to 8 are in the offline product list. |
| Api.EntryLifetime | src/lib/api.ts:120-132 | An entry written at time t is fresh at `now` iff `now - t < 300000`. |
| Api.ApiService.GetCachedData | src/lib/api.ts:122-128 | Returns a value iff the entry exists and is younger than the TTL, and then returns its data. |
| Api.ApiService.SetCachedData | src/lib/api.ts:130-132 | Replaces that key's entry with (data, now) and leaves every other key's entry unchanged. |
| Api.ApiService.GetCategories | src/lib/api.ts:120-186 | A truthy entry fresh at the lookup time `now` is returned and the cache is unchanged. Otherwise the server's answer, or on any failure the four seed categories, is returned and cached with the time `written` at which the request settled. |
| Api.ApiService.GetProducts | src/lib/api.ts:188-329 | The same read-through under `ProductsCacheKey(categoryId)`, looked up at `now` and stamped with `written`. The failure value is the filtered seed, which is also cached. |
| Api.LateWriteScenario | src/lib/api.ts:120-186 | A lookup at 0 whose request fails at 30000 still serves the seed categories at 310000: the entry's age counts from the write. |
| Api.TimeToLiveScenario | src/lib/api.ts:120-132 | A value set at t is served at t + 299999 and is gone at t + 300000. |
| Api.ElectronicsFallback | src/lib/api.ts:204-327 | The offline Electronics listing is products 1, 2 and 6, in that order. |
| Api.OfflineScenario | src/lib/api.ts:134-329 | From an empty cache, offline: 4 categories, 8 products, then Electronics ids [1, 2, 6]. |
| Api.GetAdminDashboardStats | src/lib/api.ts:596-667 | The statistics are the server's on success, and the fixed mock figures on a non-2xx status or a failed `fetch`. |
| RegisterPage.ValidationMessages | src/app/register/page.tsx:57-64 | The first failing check's message is returned, in the order name, email, phone (blank after trimming), password empty, password shorter than 6 UTF-16 code units, confirmation different. |
| RegisterPage.MismatchMessage | src/app/register/page.tsx:63 | Once the other checks pass, a different confirmation gives "Passwords do not match". |
| RegisterPage.AstralPasswordPasses | src/app/register/page.tsx:62 | A password of three emoji is long enough: `password.length` counts each as two code units. |
| RegisterPage.ValidFormIff | src/app/register/page.tsx:57-65 | Validation passes iff name, email and phone are not blank and the untrimmed password has at least 6 UTF-16 code units and equals the confirmation. |
| RegisterPage.ValidateForm | src/app/register/page.tsx:57-65 | No contract of its own: `ValidationMessages`, `MismatchMessage` and `ValidFormIff` state which message it reports and when it passes. |
| RegisterPage.FirstName | src/app/register/page.tsx:83 | The first name is the longest prefix of the name without a space: the next character, if any, is a space. |
| RegisterPage.LastName | src/app/register/page.tsx:84 | The last name is everything after the first space, and empty when the name has no space. |
| RegisterPage.Payload | src/app/register/page.tsx:80-88 | No contract of its own: `PayloadCarriesForm` states what the payload carries. |
| RegisterPage.WithField | src/app/register/page.tsx:50-55 | No contract of its own: `WithFieldChangesOnlyThatField` states its effect. |
| RegisterPage.NameSplitRoundTrip | src/app/register/page.tsx:83-84 | With a space, first name + " " + last name gives back the name. Without one, the first name is the whole name and the last name is empty. |
| RegisterPage.PayloadCarriesForm | src/app/register/page.tsx:80-88 | The payload's username and email are both the form's email, the phone and passwords are copied, and the names rejoin to the full name. |
| RegisterPage.RegisteredUserIsLoggedIn | src/app/register/page.tsx:91-93 | The keys registration writes are the ones the session reads: the new user is logged in and the received token is read back. |
| RegisterPage.WithFieldChangesOnlyThatField | src/app/register/page.tsx:50-55 | An input change sets its own field and leaves the other four unchanged. |
| RegisterPage.RegisterPage.HandleChange | src/app/register/page.tsx:50-55 | The form becomes the old form with that field replaced; nothing else changes. |
| RegisterPage.RegisterPage.HandleSubmit | src/app/register/page.tsx:67-101 | An invalid form sets the error and sends nothing, with storage and navigation unchanged. A valid form sends the payload. On success the tokens and user are stored and the page navigates to "/"; on failure the error message is shown and storage is unchanged. |
| RegisterPage.RegisterPage.Submit | src/app/register/page.tsx:77-100 | The request part of the submit: the session is persisted and "/" pushed on success, and the error message is shown on failure. Loading ends either way. |
| CreateShipmentPage.MockOrder | src/app/admin/shipments/create/page.tsx:80-91 | The mock order carries the parsed id, the 1250 total and verified payment. |
| CreateShipmentPage.DigitPrefix | src/app/admin/shipments/create/page.tsx:68 | The digit prefix is a prefix of the text, all digits, and maximal. |
| CreateShipmentPage.ParseDigits | src/app/admin/shipments/create/page.tsx:68 | A number is read exactly when the text starts with a digit. |
| CreateShipmentPage.ParseInt | src/app/admin/shipments/create/page.tsx:68 | `parseInt` gives a number only when the text holds a digit. |
| CreateShipmentPage.DigitsValueOfNatToString | src/app/admin/shipments/create/page.tsx:68 | The decimal text of n is all digits and reads back as n. |
| CreateShipmentPage.ParseIntRoundTrip | src/app/admin/shipments/create/page.tsx:68 | `parseInt` of the printed form of any integer id gives that id back. |
| CreateShipmentPage.AwbNumber | src/app/admin/shipments/create/page.tsx:95 | The AWB number is "DEL" followed by the last (up to) eight digits of the clock reading. |
| CreateShipmentPage.AwbNumberLength | src/app/admin/shipments/create/page.tsx:95 | From 10^7 ms on, the AWB number has 11 characters. |
| CreateShipmentPage.TrackingUrl | src/app/admin/shipments/create/page.tsx:99 | The tracking URL is the Delhivery track prefix followed by exactly that AWB number. |
| CreateShipmentPage.WithFieldChangesOnlyThatField | src/app/admin/shipments/create/page.tsx:130 | An input change sets its field and leaves the others unchanged. |
| CreateShipmentPage.ClearErrorOnlyThatField | src/app/admin/shipments/create/page.tsx:131-133 | Clearing an error removes that field's error and leaves the others unchanged. |
| CreateShipmentPage.WithField | src/app/admin/shipments/create/page.tsx:130 | No contract of its own: `WithFieldChangesOnlyThatField` states its effect. |
| CreateShipmentPage.ClearError | src/app/admin/shipments/create/page.tsx:131-133 | No contract of its own: `ClearErrorOnlyThatField` states its effect. |
| CreateShipmentPage.ValidationErrors | src/app/admin/shipments/create/page.tsx:110-124 | No contract of its own: `ValidationErrorsFlags` states which fields it flags. |
| CreateShipmentPage.OrderPath | src/app/admin/shipments/create/page.tsx:150 | No contract of its own: the order page with `shipment_created=true`; `HandleCreateShipment` states when it is pushed. |
| CreateShipmentPage.ValidationErrorsFlags | src/app/admin/shipments/create/page.tsx:110-124 | The AWB and courier are flagged iff blank after trimming, the date iff empty (untrimmed), each with its message. The URL and notes are never flagged. |
| CreateShipmentPage.ValidFormIff | src/app/admin/shipments/create/page.tsx:110-127 | The form passes iff the AWB number and courier are not blank and a date is set. |
| CreateShipmentPage.LoadedFormNeedsOnlyDate | src/app/admin/shipments/create/page.tsx:95-127 | After the AWB number is generated, a form with a courier and no date fails on the date alone. |
| CreateShipmentPage.InitialCourierFilled | src/app/admin/shipments/create/page.tsx:58-64 | The initial courier "Delhivery" passes its check. |
| CreateShipmentPage.CreateShipmentPage.constructor | src/app/admin/shipments/create/page.tsx:55-65 | Initial state: loading, no order, "Delhivery" as the only filled field, no errors. |
| CreateShipmentPage.CreateShipmentPage.Mount | src/app/admin/shipments/create/page.tsx:67-73 | A non-empty order parameter loads the order with the parsed id. Otherwise the admin is sent to "/admin/orders". |
| CreateShipmentPage.CreateShipmentPage.LoadOrder | src/app/admin/shipments/create/page.tsx:75-108 | Sets the mock order, the AWB number and its tracking URL, keeping the other fields. Loading ends. |
| CreateShipmentPage.CreateShipmentPage.ValidateForm | src/app/admin/shipments/create/page.tsx:110-127 | The recorded errors are those of the form, and the result is true iff none is recorded. |
| CreateShipmentPage.CreateShipmentPage.HandleInputChange | src/app/admin/shipments/create/page.tsx:129-134 | Sets the field and clears only that field's error. No error remains on it. |
| CreateShipmentPage.CreateShipmentPage.HandleCreateShipment | src/app/admin/shipments/create/page.tsx:136-158 | Always records the validation errors. It navigates to the order page only when the form is valid and an order is loaded; otherwise `creating` and navigation are untouched. |
| AdminDashboardPage.Admitted | src/app/admin/dashboard/page.tsx:81-95 | Admitted iff logged in and the stored user is an object flagged staff or superuser. |
| AdminDashboardPage.LogoutRevokesAdmin | src/app/admin/dashboard/page.tsx:135-138 | After logout the guard refuses entry. |
| AdminDashboardPage.OfflineLoginGuard | src/lib/api.ts:486-514 | Offline, the demo session passes the guard iff the identifier is "admin" in any letter case. |
| AdminDashboardPage.ShowOrders | src/app/admin/dashboard/page.tsx:113-119 | One row per order, in order, keeping id, customer name, amount, payment status and date. |
| AdminDashboardPage.ShowOrdersAppend | src/app/admin/dashboard/page.tsx:113-119 | The transformation distributes over concatenation of order lists. |
| AdminDashboardPage.Show | src/app/admin/dashboard/page.tsx:106-120 | Every figure is copied and the orders are transformed. |
| AdminDashboardPage.HealthyStock | src/app/admin/dashboard/page.tsx:458 | Healthy plus low-stock products equals the total. |
| AdminDashboardPage.PendingAmount | src/app/admin/dashboard/page.tsx:421 | The pending amount is exactly 500 times the number of pending payments. |
| AdminDashboardPage.PendingAmountPerPayment | src/app/admin/dashboard/page.tsx:421 | One more pending payment adds exactly 500 to the pending amount. |
| AdminDashboardPage.MockFigures | src/app/admin/dashboard/page.tsx:421-458 | With the fallback figures the page shows 6 healthy products, 6000 pending and 3 recent orders. |
| AdminDashboardPage.RedirectsOnError | src/app/admin/dashboard/page.tsx:125 | Redirect iff the message contains "401" or "403". |
| AdminDashboardPage.AdminDashboardPage.constructor | src/app/admin/dashboard/page.tsx:72-74 | Initial state: loading, no stats, no error. |
| AdminDashboardPage.AdminDashboardPage.CheckAuthAndLoadData | src/app/admin/dashboard/page.tsx:81-95 | Not admitted: redirect to "/admin-login" and load nothing. Admitted: the statistics load's outcome. |
| AdminDashboardPage.AdminDashboardPage.LoadDashboardStats | src/app/admin/dashboard/page.tsx:97-133 | Loaded statistics are shown with no error. On an error, "401"/"403" redirects, and anything else shows the fixed failure message. Loading ends. |
| AdminDashboardPage.AdminDashboardPage.HandleLogout | src/app/admin/dashboard/page.tsx:135-138 | The session keys are removed, then "/admin-login" is pushed. |
| AdminDashboardPage.RejectedStatsScenario | src/lib/api.ts:596-667 | A 401 or 403 from the statistics endpoint never redirects: the page shows the mock figures. |
| UserDashboardPage.DisplayName | src/app/dashboard/page.tsx:236 | No user: "Guest User". Otherwise the first name if non-empty, else the username. |
| UserDashboardPage.SignedInUserIsNotGuest | src/app/dashboard/page.tsx:438 | A user with a first name is never greeted as a guest. |
| UserDashboardPage.WithProfileField | src/app/dashboard/page.tsx:571-640 | An edit always leaves the profile an object, even when none was loaded. |
| UserDashboardPage.WithProfileFieldChangesOnlyThatField | src/app/dashboard/page.tsx:571-640 | Editing a profile field changes only that input and keeps identity and role fields. |
| UserDashboardPage.ProfileRequestIsAnonymous | src/app/dashboard/page.tsx:115 | The page's `getProfile()` carries no Authorization header, while a stored token would have given one. |
| UserDashboardPage.UserDashboardPage.constructor | src/app/dashboard/page.tsx:84-90 | Initial state: loading, no user, an empty profile, not editing. |
| UserDashboardPage.UserDashboardPage.LoadUserProfile | src/app/dashboard/page.tsx:99-128 | A stored user is used without a request; unparsable stored text goes to "/login". Without one the profile endpoint is asked, and a failure goes to "/login". Loading ends. |
| UserDashboardPage.UserDashboardPage.EditProfileField | src/app/dashboard/page.tsx:571 | The profile becomes the old one with that field set. |
| UserDashboardPage.UserDashboardPage.HandleProfileUpdate | src/app/dashboard/page.tsx:137-150 | The profile is written under `user` and becomes the displayed user. Edit mode and saving end. |
| UserDashboardPage.UserDashboardPage.HandleLogout | src/app/dashboard/page.tsx:130-135 | As written: removes `access_token`, `refresh_token` and `user`, then pushes "/". |
| UserDashboardPage.UserDashboardPage.HandleLogoutClearingSession | src/lib/api.ts:924-930 | Corrected logout: removes the session's own keys, then pushes "/". |
| UserDashboardPage.LogoutAsWrittenKeepsTokens | src/app/dashboard/page.tsx:131-133 | After the page's logout the visitor is logged out, yet both tokens remain and requests still send `Bearer <token>`. |
| UserDashboardPage.LogoutClearingSessionDropsTokens | src/lib/api.ts:924-930 | After the corrected logout no token remains and requests carry no header. |
| HomePage.JsRemainder | src/app/page.tsx:105 | JavaScript's `%` takes the sign of the dividend, and is the identity (or one subtraction) below twice the divisor. |
| HomePage.NextSlide | src/app/page.tsx:281 | Next stays in [0, n), moves up by one and wraps from n-1 to 0. |
| HomePage.PrevSlide | src/app/page.tsx:273 | Previous stays in [0, n), moves down by one and wraps from 0 to n-1. |
| HomePage.SlidesAreInverse | src/app/page.tsx:273-281 | The two arrows undo each other on every valid index. |
| HomePage.Advance | src/app/page.tsx:105 | Any number of auto-advances from a valid slide stays on a valid slide. |
| HomePage.AdvanceWraps | src/app/page.tsx:105 | k auto-advances (k ≤ n) move k slides on, wrapping once past the last. |
| HomePage.CarouselCycles | src/app/page.tsx:105 | After n advances the carousel is back, and every slide is reached before that. |
| HomePage.ApiEntries | src/app/page.tsx:345 | At most four API categories, in order, each with the box icon and its id. |
| HomePage.CategoryGrid | src/app/page.tsx:331-346 | The 12 fixed cards, then the first min(4, n) API categories in order. |
| HomePage.GridIgnoresLaterCategories | src/app/page.tsx:345 | Categories beyond the fourth never change the grid. |
| HomePage.OfflineGrid | src/app/page.tsx:331-346 | Offline the grid has 16 cards, and the first seed card repeats the "Electronics" card. |
| HomePage.ProductsFilter | src/app/page.tsx:139 | `selectedCategory || undefined`: a filter exactly for a non-zero selection, unchanged. |
| HomePage.ProductsFilterAgreesWithApi | src/app/page.tsx:139 | The page's `|| undefined` changes neither the cache key nor the offline products. |
| HomePage.ViewAll | src/app/page.tsx:417 | "View All Products" clears the selection, which requests `products_all`. |
| HomePage.ProductSectionFor | src/app/page.tsx:426-436 | A spinner while loading, the fixed showcase for an empty list, else the product grid. |
| HomePage.FindCategory | src/app/page.tsx:406 | `find` returns the first listed category with that id (no earlier one has it), or none when no category has it. |
| HomePage.ProductsHeading | src/app/page.tsx:405-407 | "Featured Products" with no selection, the category name + " Products" when found, "undefined Products" when not. |
| CategoriesPage.IconFor | src/app/categories/page.tsx:78-97 | A mapped name gets its icon, any other name "📦". |
| CategoriesPage.ColorFor | src/app/categories/page.tsx:86-98 | A mapped name gets its colour class, any other name the grey class. |
| CategoriesPage.GetCategoryDisplayData | src/app/categories/page.tsx:77-100 | The display data pairs the icon and the colour of the category's name. |
| CategoriesPage.CustomIconIffCustomColor | src/app/categories/page.tsx:78-94 | Both maps have the same keys, so a custom icon comes with a custom colour and vice versa. |
| CategoriesPage.SeedAndUnknownDisplay | src/app/categories/page.tsx:77-99 | Electronics gets 📱 and blue; an unmapped name gets both defaults. |
| CategoriesPage.Description | src/app/categories/page.tsx:233 | A non-empty description is kept; otherwise "Explore our " + lower-case name + " collection". |
| CategoriesPage.DescriptionIgnoresCase | src/app/categories/page.tsx:233 | The fallback description does not depend on the name's letter case. |
| CategoriesPage.LowerCaseFallback | src/app/categories/page.tsx:233 | "Books" without a description reads "Explore our books collection". |
| Text.Trim | src/app/register/page.tsx:58-60 | The trimmed text is no longer than the input and starts and ends with a character that is not white space. |
| Text.TrimEmptyIffBlank | src/app/register/page.tsx:58-60 | `!s.trim()` holds exactly for strings of white space only. |
| Text.Utf16Length | src/app/register/page.tsx:62 | The code-unit length lies between the character count and twice it. |
| Text.Utf16LengthIsCharCount | src/app/register/page.tsx:62 | The code-unit length equals the character count exactly when no character lies outside the Basic Multilingual Plane. |
| Text.ToLower | src/app/categories/page.tsx:233 | Same length, each ASCII capital replaced by its lower-case letter and every other character kept. |
| Text.Split | src/app/register/page.tsx:83-84 | At least one part; without the separator the whole string; otherwise the first part is the text before the first separator. |
| Text.Join | src/app/register/page.tsx:84 | No contract of its own: `JoinSplit` and `SplitAtFirst` state that it undoes `Split`. |
| Text.JoinSplit | src/app/register/page.tsx:83-84 | Splitting and joining with the same separator gives back the string. |
| Text.SplitAtFirst | src/app/register/page.tsx:83-84 | The first part, the separator and the re-joined rest give back the string. |
| Text.Contains | src/app/admin/dashboard/page.tsx:125 | `includes` holds iff the substring occurs at some position. |
| Text.IntToStringInjective | src/lib/api.ts:189 | Different integers print differently. |

## Left out

- HTTP and JSON: `fetch`, `response.json()`, `FormData` and the `API_BASE_URL` lookup are not modelled. Each request is an `Outcome` parameter, and `JSON.parse`/`JSON.stringify` are a `JsonCodec` parameter.
- Body-parse failure on a 2xx response is not modelled: an `Outcome` that is `Ok` always carries a parsed body. In `getProduct`, `login` and `getAdminDashboardStats` the 2xx body is returned by an unawaited `response.json()`, so a non-JSON body would reject past their catch blocks.
- The clock (`Date.now`) is the parameter `now`.
- Timers are left out: the carousel's `setInterval` and the 2 s simulated delay in `handleCreateShipment`. The carousel's steps are modelled as `NextSlide`.
- React rendering, framer-motion, Tailwind classes other than the category colour classes, and `alert` are left out. `router.push` is recorded in `navigation`.
- Floating point (`parseFloat`, `toLocaleString`) is left out; amounts are integers.
- Concurrency and interleaving of overlapping promises are left out; each operation runs to completion.
- The `typeof window` branches are left out; storage is always present.
- The one-shot endpoint wrappers are modelled once, as `Http.Authenticated` (Bearer header when a token is given, fixed failure text) and `Http.Mutation` (error text from the body). The `Authenticated` ones are `updateProfile`, the admin orders and products, payments, Delhivery, Razorpay and the address operations. `getUPISettings` sends no `Authorization` header at all; it is `Authenticated` with no token.
- Records are reduced to the fields the logic inspects; seed descriptions, images and timestamps are dropped.
- Text.ToLower: lower-cases ASCII letters only, which is exact for comparing with "admin" but not for other scripts.
- CreateShipmentPage.ParseInt: does not handle the `0x` hexadecimal prefix, and reads digits as exact integers rather than doubles (no precision loss past 2^53). A `NaN` id is `None`.
- CategoriesPage.IconFor: inherited `Object.prototype` keys (e.g. "constructor") are not map entries in the model.
- Auth.LoginErrorMessage: the `response.text()` fallback after a failed `response.json()` is modelled as always rejecting, since the body has already been read.
- Api.GetAdminDashboardStats: a 2xx response whose body is not JSON rejects in the source, because the unawaited `response.json()` (src/lib/api.ts:607) escapes the catch; the model has no such outcome and yields the server's figures or `MockStats` only. The page's `StatsLoad.Thrown` covers the rejection on the page side.
- Auth.Register: states only the success condition and the "Registration failed" fallback; the rest is `Http.Mutation`'s contract.
- The register page's `err instanceof Error ? … : 'Registration failed'` always takes the `Error` branch: every modelled failure is an `ApiError`.

## Findings

| source | as written | input that shows it | evidently intended | confidence | as-written member | corrected member |
|---|---|---|---|---|---|---|
| src/app/dashboard/page.tsx:131-133 | The customer dashboard's logout removes `access_token` and `refresh_token`. The session writes and reads `accessToken` and `refreshToken` (src/lib/api.ts:915-928, src/app/register/page.tsx:91-92). | Storage after registration holds `accessToken = "t"`. After the dashboard logout `getAccessToken()` is still "t", and authenticated requests still send `Bearer t`. | Clear the same keys as `ApiService.logout`, so no token survives logout. | likely; not executed | UserDashboardPage.UserDashboardPage.HandleLogout, UserDashboardPage.LogoutAsWrittenKeepsTokens | UserDashboardPage.UserDashboardPage.HandleLogoutClearingSession, UserDashboardPage.LogoutClearingSessionDropsTokens |

# mobshop storefront core in Dafny

This project models the deterministic rules under the mobshop storefront. The storefront has two halves:

- a Go backend: Gin handlers, an auth service over a user repository, and a product proxy to an upstream catalogue;
- a React frontend: hooks holding the catalogue state, the filter panel, the API client, the pagination controls, the product card and the auth pages.

The backend side covers these rules:

- the register and login validators;
- the auth service's control flow: Register checks email uniqueness, then username uniqueness, then hashes, creates and signs. Login folds every lookup or password failure into "invalid credentials". GetUserByID parses the identifier before the lookup;
- how the auth handler maps each error to an HTTP status and body;
- the product handler:
  - normalising `limit` and `skip`;
  - the upstream query and endpoint choice;
  - the price-range filter applied after the fetch;
- the trusted-proxy list read from the environment.

The frontend side covers these rules:

- how filter state becomes the API filters (an inverted price range is dropped);
- the URL query the API client builds;
- the token and 401 interceptors;
- the state changes of both product hooks;
- the staged/committed split of the filter panel;
- paging arithmetic;
- the product card's stock bands and buy target;
- the sign-up and sign-in page validation and submission;
- the route guard;
- the home page's choice of what to render.

Modules:

- Shared modules:
  - `Base` holds Option and JavaScript truthiness of an optional string.
  - `Text` holds ASCII trimming, case mapping, splitting and decimal digits.
  - `Models` holds the records.
  - `Uuid` models `uuid.Parse`.
- Backend modules: `AuthValidators`, `AuthService`, `AuthHandler`, `ProductHandler` and `ServerConfig`.
- Frontend modules: `FilterTypes`, `Paging`, `ProductsWithFilters`, `ProductFilterPanel`, `ApiClient`, `ProductsHook`, `PaginationControls`, `ProductCard`, `AuthForms`, `SignUp`, `SignIn`, `ProtectedRoute` and `HomePage`.

Anything that changes state in place is a class whose methods state the whole new state with `old(...)`. This covers:

- the user repository and the services;
- the two React hooks, the filter panel and the two auth pages;
- `URLSearchParams`, `localStorage` and the axios client;
- the in-place trimming loop of `getTrustedProxies`.

Rules that only compute are functions, and their properties are lemmas.

Repository failures, bcrypt/JWT failures, fresh UUIDs and the clock are inputs, gathered in `AuthService.Environment` and `UserRepository.failing`. Likewise, upstream HTTP replies and form-library outcomes are inputs to the methods that consume them.

## Model

| member | source | states |
|---|---|---|
| Text.TrimSpace | backend/internal/validators/auth_validators.go:51 | the result is empty exactly when the input is all white space; otherwise it is the input minus its maximal leading and trailing white-space runs, with no white space at either end |
| Text.TrimIdempotent | backend/internal/validators/auth_validators.go:51 | trimming an already-trimmed string changes nothing |
| Text.ToUpperChar | frontend/src/components/ProductFilters.tsx:163 | lower-case ASCII letters become upper-case letters; every other character is unchanged |
| Text.ToLower | frontend/src/pages/SignUpPage.tsx:59 | same length; each character is lower-cased ASCII-wise |
| Text.Split | backend/main.go:109 | at least one piece; no piece contains the separator |
| Text.SplitCount | backend/main.go:109 | there is one more piece than there are separators |
| Text.JoinSplit | backend/main.go:109 | joining the pieces back with the separator gives the original string |
| Text.NatDigitsValue | backend/internal/handlers/product_handler.go:53-54 | the decimal rendering of n denotes n |
| Text.Itoa | backend/internal/handlers/product_handler.go:53-54 | the rendering is never empty; Atoi reads it back (see AtoiItoa) |
| FilterTypes.SortKeyName | frontend/src/components/ProductFilters.tsx:24 | Title renders as "title", Price as "price" and Rating as "rating", each name for exactly one key |
| FilterTypes.SortOrderName | frontend/src/components/ProductFilters.tsx:25 | Asc renders as "asc" and Desc as "desc", each name for exactly one order |
| AuthValidators.EmailPatternFromParts | backend/internal/validators/auth_validators.go:91 | two non-empty parts without white space joined by '@' match `^\S+@\S+$` |
| AuthValidators.EmailPatternParts | backend/internal/validators/auth_validators.go:91 | every match of `^\S+@\S+$` splits into such two parts around an '@' |
| AuthValidators.ValidateName | backend/internal/validators/auth_validators.go:50-63 | accepts exactly 2..50 characters after trimming; each error message holds exactly in its own case (blank, one character, over 50) |
| AuthValidators.ValidateUsername | backend/internal/validators/auth_validators.go:65-83 | accepts exactly 3..30 trimmed characters from [a-zA-Z0-9_]; required/short/long/charset errors each hold exactly in their own case, checked in the source's order |
| AuthValidators.ValidateEmail | backend/internal/validators/auth_validators.go:85-101 | accepts exactly a trimmed address matching `^\S+@\S+$` of at most 100 bytes; blank, malformed and too-long cases each map to their message |
| AuthValidators.ValidatePassword | backend/internal/validators/auth_validators.go:103-117 | accepts exactly 6..100 untrimmed characters; only the empty string is "required" |
| AuthValidators.ValidateRegisterRequest | backend/internal/validators/auth_validators.go:10-28 | accepts iff all four field checks accept; otherwise reports the first failing check in the order name, username, email, password |
| AuthValidators.ValidateLoginRequest | backend/internal/validators/auth_validators.go:30-48 | accepts iff both fields are non-blank, the untrimmed username has at least 3 bytes and the untrimmed password at least 6; each message holds exactly in its case, in source order |
| AuthValidators.RegisterValidationIgnoresSurroundingSpace | backend/internal/validators/auth_validators.go:51 | trimming name, username and email before registering gives the same verdict |
| AuthValidators.RegisteredCredentialsPassLoginValidation | backend/internal/validators/auth_validators.go:30-48 | credentials accepted at registration pass login validation iff the password is not all white space |
| AuthValidators.BlankPasswordRegistersButCannotLogIn | backend/internal/validators/auth_validators.go:35-36 | six spaces are a valid registration password but are rejected as "password is required" at login |
| Uuid.Parse | backend/internal/services/auth_service.go:90 | every accepted identifier yields the canonical 36-character hyphenated lower-case form |
| Uuid.ParseCanonical | backend/internal/services/auth_service.go:90 | a canonical identifier parses to itself |
| AuthService.BcryptHash | backend/internal/services/auth_service.go:46 | the stored hash is never the password itself |
| AuthService.BcryptMatchesOnlyItsPassword | backend/internal/services/auth_service.go:77 | a hash matches an attempt iff the attempt is the password that was hashed |
| AuthService.SignJwt | backend/internal/services/auth_service.go:103-112 | a signed token is never empty |
| AuthService.NewUser | backend/internal/services/auth_service.go:52-57 | the new user copies name, username and email, and stores a hash (not the password) that matches the password |
| AuthService.InsertKeepsIndexed | backend/internal/models/models.go:11-14 | inserting a user whose id, email and username are all unused keeps the three indexes consistent and unique |
| AuthService.UserRepository.constructor | backend/internal/services/auth_service.go:15 | a repository starts empty, with no calls recorded |
| AuthService.UserRepository.EmailExists | backend/internal/services/auth_service.go:28 | records the call; fails iff that operation is set to fail; otherwise reports whether the email is stored |
| AuthService.UserRepository.UsernameExists | backend/internal/services/auth_service.go:37 | records the call; fails iff that operation is set to fail; otherwise reports whether the username is stored |
| AuthService.UserRepository.Create | backend/internal/models/models.go:21-26 | a Nil id is replaced by the fresh one; on failure nothing is stored; otherwise the user is indexed by id, email and username and the indexes stay consistent |
| AuthService.UserRepository.GetByUsername | backend/internal/services/auth_service.go:72 | finds a user iff the lookup does not fail and the username is stored, and the user found has that username |
| AuthService.UserRepository.GetById | backend/internal/services/auth_service.go:95 | finds a user iff the lookup does not fail and the id is stored, and the user found has that id |
| AuthService.Service.constructor | backend/internal/services/auth_service.go:19-24 | keeps the repository and the JWT secret it is given |
| AuthService.Service.Register | backend/internal/services/auth_service.go:26-69 | the exact error for each failing step in source order (email check, email taken, username check, username taken, hash, create, token); which repository calls happen; success iff email and username were free and every step succeeded, and then the user is stored and returned with its token; past both checks and hashing, CreateFailed exactly on a database error or a reused id and TokenFailed exactly when signing fails after creation, the user then staying stored; no other error is ever returned |
| AuthService.Service.Store | backend/internal/services/auth_service.go:45-68 | hash, create and sign in order: a hash failure makes no repository call; past hashing, creation fails exactly on a database error or a clash on id, email or username, and stores nothing; a signing failure is reported only after a successful creation and leaves the user stored; success returns the stored user with a token for its id |
| AuthService.Service.Login | backend/internal/services/auth_service.go:71-87 | "invalid credentials" iff the lookup fails or the password does not match the stored hash; "failed to generate token" iff the user is found and matches but signing fails; success iff found, matching and signed, returning the found user and a token for its id |
| AuthService.Service.GetUserById | backend/internal/services/auth_service.go:89-101 | "invalid user ID" iff the identifier does not parse; "user not found" iff it parses but the lookup fails; no other error; success exactly when the id parses and a user is stored under it, which is returned |
| AuthService.RegisterThenLogin | backend/internal/services/auth_service.go:26-87 | after a successful registration, logging in with the same credentials succeeds and returns the registered user |
| AuthHandler.View | backend/internal/handlers/auth_handler.go:49-54 | the public view carries id, name, username and email and never the password hash |
| AuthHandler.BindErrorResponse | backend/internal/utils/response.go:43-49 | a request that does not bind gets 400 "Validation failed" with code VALIDATION_ERROR and the binder's details |
| AuthHandler.ValidationErrorResponse | backend/internal/handlers/auth_handler.go:29-32 | a validator failure gets 400 with the validator's message and code VALIDATION_ERROR |
| AuthHandler.RegisterErrorResponse | backend/internal/handlers/auth_handler.go:35-44 | 409 iff the email or username is taken, with codes EMAIL_EXISTS / USERNAME_EXISTS respectively; every other error gets 500 "Failed to create account" |
| AuthHandler.LoginErrorResponse | backend/internal/handlers/auth_handler.go:72-79 | 401 INVALID_CREDENTIALS iff the credentials are invalid; anything else gets 500 "Login failed" |
| AuthHandler.ProfileErrorResponse | backend/internal/handlers/auth_handler.go:105-114 | 400 iff the id is invalid, 404 iff the user is not found, otherwise 500 "Failed to retrieve profile" |
| AuthHandler.Logout | backend/internal/handlers/auth_handler.go:93-95 | always 200 "Logout successful" with no data |
| AuthHandler.Handler.constructor | backend/internal/handlers/auth_handler.go:17-19 | keeps the service it is given |
| AuthHandler.Handler.Register | backend/internal/handlers/auth_handler.go:21-56 | bind and validation failures answer 400 and leave the repository untouched; for a valid request, a taken email answers 409 EMAIL_EXISTS and then a taken username 409 USERNAME_EXISTS (409 exactly in those cases); 201 exactly when email and username were free and checking, hashing, creating and signing all succeeded, with the new user stored and its view and token in the body; every other outcome answers 500 "Failed to create account" |
| AuthHandler.Handler.Login | backend/internal/handlers/auth_handler.go:58-91 | bind and validation failures answer 400; 401 iff the service reports invalid credentials; 200 iff the request is valid and the service reports no error, answering with the looked-up user's view and token; any other service error answers 500 "Login failed" |
| AuthHandler.Handler.GetProfile | backend/internal/handlers/auth_handler.go:97-126 | 401 exactly when no user id was stored; 200 exactly when the service finds the user; 400/404 exactly for invalid ids / unknown users; 200 answers with the user's view and creation time |
| ProductHandler.Atoi | backend/internal/handlers/product_handler.go:39 | accepted text starts with a digit or sign, and its value fits in 64 bits |
| ProductHandler.AtoiItoa | backend/internal/handlers/product_handler.go:39-54 | Atoi reads back what Itoa writes, for every 64-bit value |
| ProductHandler.EffectiveLimit | backend/internal/handlers/product_handler.go:28-42 | the limit is always 1..100; a parsed value in range is used as is; anything else gives 12 |
| ProductHandler.EffectiveSkip | backend/internal/handlers/product_handler.go:29-47 | the skip is never negative; a parsed non-negative value is used as is; anything else gives 0 |
| ProductHandler.LimitRoundTrip | backend/internal/handlers/product_handler.go:39-42 | a limit of 1..100 sent as decimal text is honoured exactly |
| ProductHandler.UpstreamParams | backend/internal/handlers/product_handler.go:50-64 | limit and skip are always sent; sortBy and order are added iff sortBy is price, title or rating (the default title counts); order is "desc" only for "desc" |
| ProductHandler.ChooseUpstream | backend/internal/handlers/product_handler.go:69-75 | the search endpoint iff search is non-empty; the category endpoint iff search is empty and category is not; otherwise the product list |
| ProductHandler.ParseWholeNumber | backend/internal/handlers/product_handler.go:96 | a whole number written in decimal parses as that number |
| ProductHandler.KeepInRange | backend/internal/handlers/product_handler.go:90-117 | keeps no more products than it is given; every kept product is within the parsed bounds, and a product is kept iff it was given and is within them |
| ProductHandler.KeepInRangeIsSubsequence | backend/internal/handlers/product_handler.go:92-114 | the kept products keep their upstream order |
| ProductHandler.KeepInRangeCounts | backend/internal/handlers/product_handler.go:90-117 | each product within the bounds is kept exactly as many times as upstream returned it; any other product not at all |
| ProductHandler.KeepWithoutBounds | backend/internal/handlers/product_handler.go:95-109 | with neither bound, every product is kept |
| ProductHandler.UnparsableBoundsKeepAll | backend/internal/handlers/product_handler.go:96-104 | bounds that do not parse as numbers are ignored, so every product is kept |
| ProductHandler.PriceAdmits | backend/internal/handlers/product_handler.go:93-109 | the per-product check is exactly the lower and upper bound test on the parsed bounds |
| ProductHandler.FilterByPrice | backend/internal/handlers/product_handler.go:90-117 | with neither price parameter the response is unchanged; otherwise the products are the in-range ones and the total is their count |
| ProductHandler.GetProducts | backend/internal/handlers/product_handler.go:26-120 | the upstream request is the chosen endpoint; fetch and decode failures answer 500 with their messages; otherwise the upstream response is returned, price-filtered exactly when a price parameter is present |
| ProductHandler.GetCategories | backend/internal/handlers/product_handler.go:122-137 | fetch and decode failures answer 500 with their messages; otherwise the categories as received |
| ServerConfig.TrimEach | backend/main.go:110-112 | each array slot is replaced by its trimmed value in place |
| ServerConfig.GetTrustedProxies | backend/main.go:106-124 | the five development defaults iff the variable is empty; otherwise one trimmed entry per comma-separated piece, in order |
| ServerConfig.EntryIsClean | backend/main.go:109-111 | no configured entry contains a comma or has white space at either end |
| Paging.CeilDiv | frontend/src/hooks/useProductsWithFilters.ts:120 | the page count is the least number of pages of the given size covering the total |
| Paging.PageCount | frontend/src/hooks/useProductsWithFilters.ts:120 | the page count is non-negative, zero iff there are no items, and the last page is not empty |
| Paging.Skip | frontend/src/hooks/useProductsWithFilters.ts:73 | page 1 skips nothing; from page 1 on the skip is never negative; the skip is one page less than page times limit |
| ProductsWithFilters.ApiFilters | frontend/src/hooks/useProductsWithFilters.ts:29-67 | the search is sent (trimmed) iff it is not blank; the category iff non-empty; sort always; each price bound is the one entered; both bounds sent together only when min <= max; a single bound is always sent |
| ProductsWithFilters.InvertedRangeDropped | frontend/src/hooks/useProductsWithFilters.ts:51-56 | when both bounds are set and min > max, neither is sent |
| ProductsWithFilters.DefaultApiFilters | frontend/src/hooks/useProductsWithFilters.ts:20-46 | the initial filters send only sortBy title and order asc |
| ProductsWithFilters.ProductsWithFilters.constructor | frontend/src/hooks/useProductsWithFilters.ts:10-27 | starts loading on page 1 with no products, no error, total 0, default filters and limit 12 unless one is given |
| ProductsWithFilters.ProductsWithFilters.HandlePageChange | frontend/src/hooks/useProductsWithFilters.ts:106-108 | sets the page and nothing else |
| ProductsWithFilters.ProductsWithFilters.HandleFiltersChange | frontend/src/hooks/useProductsWithFilters.ts:110-113 | replaces the filters and returns to page 1; nothing else changes |
| ProductsWithFilters.ProductsWithFilters.HandleLimitChange | frontend/src/hooks/useProductsWithFilters.ts:115-118 | replaces the limit and returns to page 1; nothing else changes |
| ProductsWithFilters.ProductsWithFilters.FetchProducts | frontend/src/hooks/useProductsWithFilters.ts:69-85 | requests the current limit, that page's skip and the derived API filters; on success stores the products and total (missing ones as empty / 0); on failure stores the message (or the default) and clears products and total; loading ends either way |
| ProductsWithFilters.ProductsWithFilters.FetchCategories | frontend/src/hooks/useProductsWithFilters.ts:87-95 | stores the categories received, or none on failure; nothing else changes |
| ProductsWithFilters.ProductsWithFilters.TotalPages | frontend/src/hooks/useProductsWithFilters.ts:120 | the least page count covering the total |
| ProductsWithFilters.FiltersThenFetch | frontend/src/hooks/useProductsWithFilters.ts:97-113 | after a filter change, the next request asks for page 1 (skip 0) with the new filters |
| ProductFilterPanel.Update | frontend/src/components/ProductFilters.tsx:101-111 | a one-field update changes that field and no other |
| ProductFilterPanel.StageUpdate | frontend/src/components/ProductFilters.tsx:94-99 | updating the staged copy agrees with updating the full filters and then staging; a search update leaves the staged copy alone |
| ProductFilterPanel.Patch | frontend/src/components/ProductFilters.tsx:113-123 | each field given in the patch is replaced; each absent field is kept; an empty patch changes nothing |
| ProductFilterPanel.StagePatch | frontend/src/components/ProductFilters.tsx:113-118 | patching the staged copy agrees with patching the full filters and then staging |
| ProductFilterPanel.ActiveFiltersCount | frontend/src/components/ProductFilters.tsx:145-150 | the number of groups (category, price range, sort key, sort order) away from their defaults; so at most 4, and zero iff every field other than the search is at its default |
| ProductFilterPanel.ActiveCountIgnoresSearch | frontend/src/components/ProductFilters.tsx:145-150 | the search text never changes the active-filter badge |
| ProductFilterPanel.HasPendingChanges | frontend/src/components/ProductFilters.tsx:152-157 | pending iff the staged copy differs from the committed filters |
| ProductFilterPanel.RangeErrorMeansBoundsDropped | frontend/src/components/ProductFilters.tsx:372-373 | the panel flags the range as invalid exactly when the hook drops both price bounds |
| ProductFilterPanel.CoercePriceInput | frontend/src/components/ProductFilters.tsx:361 | clearing the input or entering 0 leaves the bound unset; any other number is kept |
| ProductFilterPanel.CategoryLabel | frontend/src/components/ProductFilters.tsx:163 | same length; the first character upper-cased; every later hyphen becomes a space |
| ProductFilterPanel.LabelShape | frontend/src/components/ProductFilters.tsx:163 | a label has no hyphen after its first character and starts upper-case when the slug starts lower-case |
| ProductFilterPanel.CategoryOptions | frontend/src/components/ProductFilters.tsx:159-165 | "All Categories" with the empty value first, then one option per category, in order, with its label |
| ProductFilterPanel.FilterPanel.constructor | frontend/src/components/ProductFilters.tsx:43-53 | the staged copy and the search box start from the committed filters, with the modal closed |
| ProductFilterPanel.FilterPanel.ApplyFilters | frontend/src/components/ProductFilters.tsx:82-92 | commits the staged fields, keeps the committed search, returns to page 1, closes the modal; nothing is pending afterwards; the hook's products, total, categories, loading and error are kept |
| ProductFilterPanel.FilterPanel.UpdateLocalFilter | frontend/src/components/ProductFilters.tsx:94-99 | changes only the staged copy |
| ProductFilterPanel.FilterPanel.UpdateFilter | frontend/src/components/ProductFilters.tsx:101-111 | changes the staged copy and the committed filters by the same update, then returns to page 1; the search box, the modal and the hook's other fields are kept |
| ProductFilterPanel.FilterPanel.UpdateMultipleFilters | frontend/src/components/ProductFilters.tsx:113-123 | applies the same patch to the staged copy and the committed filters, then returns to page 1; the search box, the modal and the hook's other fields are kept |
| ProductFilterPanel.FilterPanel.ClearFilters | frontend/src/components/ProductFilters.tsx:125-143 | both copies return to the defaults; the badge shows zero and nothing is pending; the hook's products, total, categories, loading and error are kept |
| ProductFilterPanel.FilterPanel.EditSearch | frontend/src/components/ProductFilters.tsx:183 | typing changes only the search box |
| ProductFilterPanel.FilterPanel.CommitSearch | frontend/src/components/ProductFilters.tsx:55-66 | when the debounce fires, a search box that differs from the committed search is committed (page 1); otherwise nothing changes; the hook's other fields are kept |
| ProductFilterPanel.FilterPanel.SyncSearch | frontend/src/components/ProductFilters.tsx:68-70 | the search box is reset to the committed search only when that search changed since the previous render; the staged copy and modal are untouched |
| ProductFilterPanel.FilterPanel.SyncStaged | frontend/src/components/ProductFilters.tsx:72-80 | the staged copy is reset to the committed staged fields only when one of those five fields changed since the previous render; the search box and modal are untouched |
| ProductFilterPanel.ApplyAndRerender | frontend/src/components/ProductFilters.tsx:68-92 | applying and re-rendering leaves the search box and staged copy as they were and nothing pending |
| ProductFilterPanel.CommitAndRerender | frontend/src/components/ProductFilters.tsx:55-80 | committing the search and re-rendering leaves the search box and staged copy as they were; the committed search is the typed one and the committed staged fields are unchanged |
| ApiClient.GetFindsFirst | frontend/src/services/api.ts:74-85 | reading a key finds its first occurrence in the query, or reports that the key is absent |
| ApiClient.GetConcat | frontend/src/services/api.ts:74-85 | reading a key from a concatenation prefers the first part |
| ApiClient.ProductQueryIncreasing | frontend/src/services/api.ts:74-85 | keys appear in the fixed order limit, skip, search, category, sortBy, sortOrder, priceMin, priceMax |
| ApiClient.ProductQueryOrdered | frontend/src/services/api.ts:74-85 | limit and skip are always the first two keys, and no key appears twice |
| ApiClient.ProductQueryValues | frontend/src/services/api.ts:73-85 | each key carries exactly the value the filters call for: limit and skip default to 12 and 0; search and category appear iff non-empty; sort and price entries iff defined |
| ApiClient.GetProductsQuery | frontend/src/services/api.ts:73-89 | building the query with URLSearchParams gives exactly the specified product query |
| ApiClient.SearchParams.constructor | frontend/src/services/api.ts:74-77 | the query starts with limit then skip |
| ApiClient.SearchParams.Append | frontend/src/services/api.ts:80 | appends one entry at the end |
| ApiClient.SearchParams.AppendWhen | frontend/src/services/api.ts:80-85 | appends the entry iff its condition holds |
| ApiClient.LocalStorage.GetItem | frontend/src/services/api.ts:15 | returns the stored value iff the key is stored |
| ApiClient.LocalStorage.RemoveItem | frontend/src/services/api.ts:26-27 | removes exactly that key |
| ApiClient.Api.constructor | frontend/src/services/api.ts:6-12 | keeps the storage and location it is given |
| ApiClient.Api.AttachToken | frontend/src/services/api.ts:14-20 | a truthy stored token is sent as "Bearer <token>"; otherwise the headers are unchanged |
| ApiClient.Api.OnResponseError | frontend/src/services/api.ts:22-44 | a 401 drops token and user and goes to /sign-in; otherwise storage and location are unchanged; the error is enhanced iff the body has an error message, with its name set to the code or "APIError" |
| ApiClient.Api.Logout | frontend/src/services/api.ts:57-64 | token and user are removed whether or not the request failed, and the failure is passed on |
| ProductsHook.Products.constructor | frontend/src/hooks/useProducts.ts:9-17 | starts loading on page 1 with no products, no error, total 0 and limit 30 unless one is given |
| ProductsHook.Products.HandlePageChange | frontend/src/hooks/useProducts.ts:39-41 | sets the page and nothing else |
| ProductsHook.Products.HandleLimitChange | frontend/src/hooks/useProducts.ts:43-46 | replaces the limit and returns to page 1 |
| ProductsHook.Products.FetchProducts | frontend/src/hooks/useProducts.ts:19-33 | requests that limit and page's skip with no filters; success stores products and total; failure stores the message but keeps the old products and total; loading ends either way |
| ProductsHook.Products.TotalPages | frontend/src/hooks/useProducts.ts:48 | the least page count covering the total |
| ProductsHook.PlainQuery | frontend/src/hooks/useProducts.ts:24 | an unfiltered request sends only limit and skip |
| ProductsHook.FailedRefetch | frontend/src/hooks/useProducts.ts:60 | a failed refetch re-requests the current page, keeps the listing, and shows the error |
| PaginationControls.StartItem | frontend/src/components/PaginationControls.tsx:20 | the first item shown is one past the page's skip, so at least 1 |
| PaginationControls.EndItem | frontend/src/components/PaginationControls.tsx:21 | the last item shown is the page's end or the total, whichever is smaller |
| PaginationControls.ItemRange | frontend/src/components/PaginationControls.tsx:20-21 | on any existing page, 1 <= start <= end <= total and at most a page of items is shown; full pages before the last, and the last page ends at the total |
| PaginationControls.ChosenLimit | frontend/src/components/PaginationControls.tsx:41-47 | a selected option yields one of 10, 20, 30, 50 that renders back as the option; a cleared selection yields no change |
| PaginationControls.SelectedOptionRoundTrip | frontend/src/components/PaginationControls.tsx:40-47 | each offered page size shows as a listed option and selecting it gives the same size |
| PaginationControls.PagerWhenOverflowing | frontend/src/components/PaginationControls.tsx:52 | the pager is shown iff the total exceeds one page |
| ProductCard.StockColor | frontend/src/components/ProductCard.tsx:45-50 | green above 50, yellow 21..50, orange 1..20, red otherwise, each iff its band |
| ProductCard.StockText | frontend/src/components/ProductCard.tsx:52-57 | In/Limited/Low/Out of Stock, each iff the same band as the colour |
| ProductCard.ColourAgreesWithText | frontend/src/components/ProductCard.tsx:45-57 | two stock levels share a colour iff they share a label |
| ProductCard.BuyDisabled | frontend/src/components/ProductCard.tsx:123 | a disabled button always shows red "Out of Stock"; for non-negative stock it is disabled iff out of stock |
| ProductCard.NegativeStockStillBuyable | frontend/src/components/ProductCard.tsx:123 | a negative stock is labelled "Out of Stock" yet the buy button stays enabled |
| ProductCard.BuyTarget | frontend/src/components/ProductCard.tsx:33-39 | signed-in users go to /checkout, others to /sign-in |
| ProductCard.OpenDetails | frontend/src/components/ProductCard.tsx:81 | opens the modal, keeps the selected image |
| ProductCard.CloseDetails | frontend/src/components/ProductCard.tsx:136 | closes the modal, keeps the selected image |
| ProductCard.SelectImage | frontend/src/components/ProductCard.tsx:160 | selects the clicked image, leaves the modal as it was |
| ProductCard.DisplayedImage | frontend/src/components/ProductCard.tsx:146 | the selected image when it exists and is non-empty, otherwise the thumbnail |
| ProductCard.GalleryShowsSelection | frontend/src/components/ProductCard.tsx:146-160 | opening shows the first image, or the thumbnail; clicking a thumbnail shows that image |
| ProductCard.BrandLabel | frontend/src/components/ProductCard.tsx:220 | the brand, or "Generic" when empty; never empty |
| AuthForms.ErrorMessage | frontend/src/pages/SignUpPage.tsx:66 | the server's error if truthy, else the exception message if truthy, else the page's fallback; never empty with a non-empty fallback |
| SignUp.Validate | frontend/src/pages/SignUpPage.tsx:41-47 | each field error holds exactly when its rule fails, with its own message |
| SignUp.Sanitize | frontend/src/pages/SignUpPage.tsx:56-61 | trims name and username, trims and lower-cases the email, passes the password unchanged |
| SignUp.AcceptedEmailPassesServer | frontend/src/pages/SignUpPage.tsx:44 | an email the page accepts (of at most 100 characters) passes ValidateEmail once sanitized |
| SignUp.AcceptedPasswordPassesServer | frontend/src/pages/SignUpPage.tsx:45 | a password the page accepts (of at most 100 characters) passes the server's password check |
| SignUp.BlankNamePassesPageOnly | frontend/src/pages/SignUpPage.tsx:42 | a two-space name passes the page but the server rejects it as "name is required" |
| SignUp.SignUpPage.constructor | frontend/src/pages/SignUpPage.tsx:27-28 | not loading, no error, no field errors, no navigation |
| SignUp.SignUpPage.Submit | frontend/src/pages/SignUpPage.tsx:50-71 | the sanitized request is sent iff every field passes; success navigates to "/"; failure shows the first truthy message or "Registration failed"; an invalid form changes only the field errors |
| SignIn.Validate | frontend/src/pages/SignInPage.tsx:36-39 | username required iff empty; password error iff shorter than 6 |
| SignIn.ServerValidLoginPassesPage | frontend/src/pages/SignInPage.tsx:37-38 | every login the server's validator accepts passes the page |
| SignIn.ShortUsernamePassesPageOnly | frontend/src/pages/SignInPage.tsx:37 | a two-letter username passes the page but the server rejects it as too short |
| SignIn.RedirectTarget | frontend/src/pages/SignInPage.tsx:28 | returns to the page the guard came from when that is truthy, else "/" |
| SignIn.SignInPage.constructor | frontend/src/pages/SignInPage.tsx:21-28 | remembers where to return to; not loading, no error, no field errors, no navigation |
| SignIn.SignInPage.Submit | frontend/src/pages/SignInPage.tsx:42-54 | the form is sent iff it passes; success replaces the location with the redirect target; failure shows the first truthy message or "Login failed" |
| ProtectedRoute.Guard | frontend/src/components/ProtectedRoute.tsx:14-26 | the loader iff loading; a replacing redirect to the forbidden page, carrying the location, iff loaded and signed out; the children iff loaded and signed in |
| ProtectedRoute.ExactlyOneOutcome | frontend/src/components/ProtectedRoute.tsx:14-26 | exactly one of the three outcomes holds |
| ProtectedRoute.BuyNowReachesCheckout | frontend/src/components/ProtectedRoute.tsx:22-26 | a signed-in buyer is sent to /checkout and the guard there shows the checkout page once loaded; a signed-out buyer is sent to /sign-in |
| HomePage.Render | frontend/src/pages/HomePage.tsx:25-91 | the full loader iff loading with no products; the error alert iff otherwise there is a truthy error; else the catalogue, "no matches" iff empty, a small loader while refetching, and the pager iff more than one page |
| HomePage.RenderHook | frontend/src/pages/HomePage.tsx:23-91 | from the hook's state: the loader iff loading with no products, else the alert iff a truthy error, else no matches iff no products; the grid shows the hook's products; the pager iff products are shown and the total exceeds the limit, with the hook's page, page count, limit and total |
| HomePage.HomeLimitNotOffered | frontend/src/pages/HomePage.tsx:23 | the page's 12 items per page is not one of the page-size selector's options |
| HomePage.RefetchKeepsGrid | frontend/src/pages/HomePage.tsx:65-69 | refetching with products on screen keeps the grid and shows the small loader |
| HomePage.Mount | frontend/src/pages/HomePage.tsx:23-31 | first render is the full loader; after a successful first fetch the grid shows the products, and a pager, if any, is on page 1 with 12 per page |

## Left out

- Strings are sequences of characters whose meaning is ASCII: Go byte lengths and JavaScript UTF-16 lengths both count characters. There is no Unicode white space, case mapping or multi-byte text.
- bcrypt and JWT signing are stand-ins (`BcryptHash`, `BcryptMatches`, `SignJwt`) with only the properties the service relies on. Their failures, `uuid.New`, and the clock (`CreatedAt`, token expiry) are inputs in `Environment`.
- The GORM repository is a map-backed class. Database errors are a set of failing operations. The unique indexes on email and username are the `Indexed` invariant.
- Gin's struct-tag binding (`binding:"required,min=..."` in models.go) is not modelled. A request either binds (`Decoded`) or does not (`BindFailed` with the binder's message).
- JSON encoding, HTTP transport, middleware, routes, CORS and the database connection are left out. The authentication middleware is represented only by the optional user id given to `GetProfile`.
- URL encoding (`url.Values.Encode`, `url.QueryEscape`, `URLSearchParams.toString`) is left out. Queries are lists of key/value pairs, and the query string on the Go side is a map from key to first value.
- ProductHandler.ParseDecimal: models `strconv.ParseFloat` on plain decimal text only. Exponents, hexadecimal, underscores, "Inf" and "NaN" are treated as unparsable. Prices are exact reals, not float64.
- JavaScript number-to-string conversion of price bounds is left out. Price bounds travel as numbers.
- ProductFilterPanel.FilterPanel.CommitSearch: the 500 ms debounce timer is collapsed into one call made when the timer fires. Timer cancellation and races between overlapping fetches are not modelled.
- The authentication context (`useAuth`: login, register, token restore) is not part of this model. Its outcomes are inputs (`RegisterOutcome`, `LoginOutcome`, `isAuthenticated`, `isLoading`).
- The forbidden, not-found and checkout pages are not part of this model. The guard's redirect to the forbidden page is its only trace.
- `window.location.href` is a field of `ApiClient.Api`, and React Router navigation is a field of each page. Neither is a real navigation.
- PaginationControls.ChosenLimit: requires the selected value to be one of the four options, since the select offers no other values.
- ProductsHook.Products.TotalPages and ProductsWithFilters.ProductsWithFilters.TotalPages: stated only for a positive limit. With a limit of 0, JavaScript's `Math.ceil(total / 0)` gives NaN or Infinity, which have no counterpart here.
- ApiClient.GetProductsQuery: each `if (...) params.append(...)` line is one `AppendWhen` call.
- Layout and markup are not modelled: Mantine components, responsive layout, hero section, price formatting with `toFixed`, product details text. Only the decisions the markup depends on are modelled.
- The staged filter copy in the panel has no search field, so `updateLocalFilter('search', ...)` is modelled as leaving it unchanged. JavaScript would add a stray, unused key.
- Logging (`console.log`, `console.error`) is left out.
- ProductHandler.UpstreamParams: lists the parameters in the order they are added. `url.Values.Encode` sends them sorted by key, which is not modelled.
- SignUp.AcceptedEmailPassesServer: covers only `ValidateEmail`. Gin's `binding:"email"` tag (models.go:36) runs first and may refuse some addresses the page and `ValidateEmail` accept, such as `a@b@c.io`.
- ProductFilterPanel.CoercePriceInput: Mantine's non-numeric text values are not a case of `NumberInputValue`. `Number(value)` is NaN for them and `|| ''` gives `''`, the same unset bound as `Cleared`.

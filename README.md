# Sushi storefront core in Dafny

This project models the logic at the heart of a React sushi storefront and
proves properties of it. The covered pieces are:

- the shopping-cart context: its reducer, payload normalisation,
  missing-snapshot merge, totals, and the store operations that call the
  cart gateway and re-read the cart;
- the session context: its reducer, start-up decision, login and register
  result shapes, and role predicates;
- the registration page's validators and CEP (Brazilian postal code) mask;
- the admin product table;
- the admin dashboard statistics;
- the admin orders panel;
- the catalogue page;
- the cart page;
- the product card;
- three route guards.

Everything the components get from the network becomes a parameter: gateway
answers, fetched products, stored tokens, the clock stamp and the answer to
a `window.confirm` prompt. Where it matters, methods also return the trace
of gateway calls they made. Money is integer cents and ratings are
integers. A JavaScript falsy field is written as the zero value of its type
when the source reads it with `||`: `0` for a number, `""` for a string.

One Dafny module per source file:

| module | file |
|---|---|
| `CartContext` | `cart_context.dfy` |
| `AuthContext` | `auth_context.dfy` |
| `RegisterPage` | `register_page.dfy` |
| `AdminProducts` | `admin_products.dfy` |
| `AdminStats` | `admin_stats.dfy` |
| `OrdersManagement` | `orders_management.dfy` |
| `ProductsPage` | `products_page.dfy` |
| `CartPage` | `cart_page.dfy` |
| `ProductCard` | `product_card.dfy` |
| `RoleRoute` | `role_route.dfy` |
| `AdminRoute` | `admin_route.dfy` |
| `AuthRoute` | `auth_route.dfy` |

Shared pieces live in three more modules:

- `Navigation` holds what a guard renders.
- `Common` holds `Option`, subsequences, filter, count, sums and folds.
- `Text` holds JavaScript's white space and character classes, plus
  `trim`, `includes`, `toLowerCase`, digit stripping, and `String` and
  `parseInt` on naturals.

Components whose handlers change state are classes. Their fields are the
component's state cells; they have `modifies` clauses, and each method's
`ensures` ties the new state to a specification function whose properties
are proved as lemmas.

The session start-up trusts a stored token without validating it. The
source's own comment at src/contexts/AuthContext.js:120-121 says so: for now
a stored token alone counts as authenticated. So a stored token whose profile
fetch fails still ends authenticated, with the user falling back to
`{token}`. The model follows the code (`AuthContext.InitEffect`,
`AuthContext.InitOutcomes`).

## Model

| member | source | states |
|---|---|---|
| CartContext.CartReduce | src/contexts/CartContext.js:21-40 | SET_LOADING changes only `loading`; SET_ERROR stores the error, ends loading and keeps the items; SET_CART replaces the items wholesale, clears the error and stamps the state; CLEAR yields the initial state; an unknown action changes nothing |
| CartContext.SetCartForgetsHistory | src/contexts/CartContext.js:27-34 | the state after SET_CART does not depend on the state before it |
| CartContext.ActionsEndLoading | src/contexts/CartContext.js:21-40 | from a state that is not loading, no sequence of actions without `SET_LOADING true` leaves the cart loading |
| CartContext.CartReduceAll | src/contexts/CartContext.js:46 | the reducer applied to a sequence of dispatched actions, in order; `ActionsEndLoading` is stated over it |
| CartContext.PayloadEntries | src/contexts/CartContext.js:50 | the entries are `products`, else `cart.products`, else none |
| CartContext.NormalizeEntry | src/contexts/CartContext.js:51-59 | the line's quantity is `quantity`, else `qty`, else 1; it is never 0, and at least 1 for non-negative inputs; the snapshot is `product` or an embedded `_id` document; the id is the snapshot's `_id` when non-empty, and otherwise a string `_id`, else `id` |
| CartContext.NormalizeEntries | src/contexts/CartContext.js:51-59 | maps every entry, in order |
| CartContext.Normalize | src/contexts/CartContext.js:48-61 | null gives no lines; otherwise the output is an order-preserving subsequence of the mapped entries, as long as the number of mapped entries with a product id, containing each of them; every line is well formed |
| CartContext.NormalizedQuantitiesPositive | src/contexts/CartContext.js:57 | with non-negative quantity fields every normalised line has quantity at least 1 |
| CartContext.MissingIds | src/contexts/CartContext.js:73 | exactly the ids of the lines without a snapshot, in line order: one id per such line (as many as there are), the `j`-th being that of the `j`-th such line; every listed id belongs to such a line |
| CartContext.FindFetched | src/contexts/CartContext.js:81 | a found product carries the requested id and was fetched; when none is found no fetched product carries that id |
| CartContext.FindFetchedIsFirst | src/contexts/CartContext.js:81 | the product found is the first fetched slot carrying the id, as `find` returns |
| CartContext.FillSnapshot | src/contexts/CartContext.js:79-85 | id and quantity never change and an existing snapshot is kept; a missing one is filled only with a fetched product carrying the line's id, and stays missing only when none does |
| CartContext.MergeMissing | src/contexts/CartContext.js:79-85 | length, ids and quantities are kept; existing snapshots are untouched; a filled snapshot is a fetched product with the line's id; well-formed lines stay well formed |
| CartContext.MergeWithoutMissing | src/contexts/CartContext.js:73-86 | when no line lacks a snapshot the merge is the identity, so skipping it changes nothing |
| CartContext.RefreshedLines | src/contexts/CartContext.js:71-86 | the stored lines are well formed, as many as the normalised ones, and none for a null body |
| CartContext.ProductFetches | src/contexts/CartContext.js:76-78 | one product request per missing id, in order |
| CartContext.TotalItems | src/contexts/CartContext.js:173 | the left fold equals the sum of the line quantities |
| CartContext.TotalPrice | src/contexts/CartContext.js:174 | the left fold equals the sum of `(price or 0) * quantity` |
| CartContext.LineSubtotal | src/contexts/CartContext.js:174 | one line's `(product?.price or 0) * quantity`; `TotalPrice` sums it |
| CartContext.EmptyCartTotals | src/contexts/CartContext.js:173-174 | an empty cart has zero items and zero price |
| CartContext.TotalsAppend | src/contexts/CartContext.js:173-174 | both totals add up over concatenated carts |
| CartContext.TotalItemsAtLeastLines | src/contexts/CartContext.js:173 | when every quantity is at least 1, the item count is at least the number of lines |
| CartContext.RefreshEffect | src/contexts/CartContext.js:63-91 | a visitor's cart is cleared; a failed read keeps the items and stores the message or 'Erro ao carregar carrinho'; a successful read stores the merged lines with no error (none for a null body); well-formedness is kept |
| CartContext.RefreshCalls | src/contexts/CartContext.js:63-91 | a visitor makes no call; a failed read makes only the cart read; a successful read makes the cart read followed by exactly one product request per missing id of the normalised lines, in order |
| CartContext.RefreshWithoutMissingFetchesNothing | src/contexts/CartContext.js:73-75 | when every normalised line has its snapshot, a refresh makes the cart read and nothing else |
| CartContext.LastRefreshWins | src/contexts/CartContext.js:87 | a successful read applied last decides the whole state, whatever came before |
| CartContext.MutationEffect | src/contexts/CartContext.js:103-144 | the "cart deleted" answer yields the initial state; a rejection keeps the items and stores the message or the fallback; an update re-reads the cart |
| CartContext.MutationCalls | src/contexts/CartContext.js:103-144 | the mutation call comes first; a rejection or the "cart deleted" answer makes no further call; an update is followed by exactly the calls of a full re-read (`RefreshCalls`) |
| CartContext.RemoveItemEffect | src/contexts/CartContext.js:103-118 | `removeItem`'s state change: the shared mutation shape with the fallback 'Erro ao remover item' (its meaning is in `MutationEffect` and the lemmas below) |
| CartContext.RemoveItemCalls | src/contexts/CartContext.js:103-118 | `removeItem`'s calls: the remove request, then the re-read's calls after an update |
| CartContext.UpdateQuantityEffect | src/contexts/CartContext.js:120-144 | `updateQuantity`'s state change: the shared mutation shape with the fallback 'Erro ao atualizar quantidade' |
| CartContext.UpdateQuantityCalls | src/contexts/CartContext.js:120-144 | `updateQuantity`'s calls: the remove request for quantity 0, else the update request, then the re-read's calls after an update |
| CartContext.UpdateToZeroIsRemove | src/contexts/CartContext.js:120-131 | `updateQuantity(id, 0)` makes the same calls as `removeItem(id)`, and ends in the same state unless the gateway fails with an empty message |
| CartContext.UpdateToZeroFallbackDiffers | src/contexts/CartContext.js:116-142 | for a rejection without a message the two operations store different fallback texts |
| CartContext.DeletedClearsWithoutRefetch | src/contexts/CartContext.js:107-111 | a deleted cart empties the state after only the remove call |
| CartContext.AddItemEffect | src/contexts/CartContext.js:93-101 | a rejection keeps the items and stores the message or 'Erro ao adicionar item'; success re-reads the cart |
| CartContext.AddItemCalls | src/contexts/CartContext.js:93-101 | the add call comes first; a rejection makes no further call; a success is followed by exactly the calls of a full re-read (`RefreshCalls`) |
| CartContext.ConfirmEffect | src/contexts/CartContext.js:146-158 | a created order clears the cart to the initial state; a failure keeps the items and stores the message or 'Erro ao confirmar pedido' |
| CartContext.ConfirmResultOf | src/contexts/CartContext.js:152-156 | success exactly when the order was created, carrying the order; a failure carries a non-empty error equal to the stored one |
| CartContext.CartStore.constructor | src/contexts/CartContext.js:7-12 | the store starts in the initial state |
| CartContext.CartStore.Dispatch | src/contexts/CartContext.js:46 | the new state is the reducer applied to the old state; stored lines stay well formed |
| CartContext.CartStore.RefreshCart | src/contexts/CartContext.js:63-91 | the new state is `RefreshEffect` of the old one and the calls are `RefreshCalls` |
| CartContext.CartStore.AddItem | src/contexts/CartContext.js:93-101 | the new state and calls are `AddItemEffect` and `AddItemCalls`, with quantity 1 by default |
| CartContext.CartStore.RemoveItem | src/contexts/CartContext.js:103-118 | the new state and calls are those of the shared mutation shape with the remove endpoint |
| CartContext.CartStore.UpdateQuantity | src/contexts/CartContext.js:120-144 | quantity 0 goes to the remove endpoint, any other to the update endpoint, in the shared mutation shape |
| CartContext.CartStore.ConfirmOrder | src/contexts/CartContext.js:146-158 | one order call with the payment method and notes; the new state is `ConfirmEffect`; the result is `ConfirmResultOf`, and on failure its error is the stored error |
| CartContext.CartStore.ClearCart | src/contexts/CartContext.js:160-162 | the state becomes the initial one |
| CartContext.CartStore.OnAuthChange | src/contexts/CartContext.js:165-171 | signing in re-reads the cart; signing out empties it with no call |
| AuthContext.AuthReduce | src/contexts/AuthContext.js:34-102 | LOGIN_START and REGISTER_START set loading and clear the error, leaving user and session alone; LOGIN_SUCCESS stores the user and authenticates; the failures drop the user, deauthenticate and store the error; REGISTER_SUCCESS leaves user and session unchanged; LOGOUT resets all four; SET_USER authenticates exactly when the payload is present; user-present-iff-authenticated is kept |
| AuthContext.ConsistentUnderAllActions | src/contexts/AuthContext.js:34-102 | no sequence of dispatches separates `isAuthenticated` from the presence of a user |
| AuthContext.AuthReduceAll | src/contexts/AuthContext.js:109 | the reducer applied to a sequence of dispatched actions, in order; `ConsistentUnderAllActions` is stated over it |
| AuthContext.CanAccessAdminIff | src/contexts/AuthContext.js:212-223 | admin-area access holds exactly when the role is 'admin' or 'manager' or the admin flag is set |
| AuthContext.HasRole | src/contexts/AuthContext.js:208-210 | `hasRole(role)`: a user is present and its role field equals `role` |
| AuthContext.IsAdmin | src/contexts/AuthContext.js:212-215 | `isAdmin()`: role 'admin' or the `admin` flag set |
| AuthContext.IsManager | src/contexts/AuthContext.js:217-219 | `isManager()`: role 'manager' |
| AuthContext.CanAccessAdmin | src/contexts/AuthContext.js:221-223 | `canAccessAdmin()`: admin or manager; `CanAccessAdminIff` states it over the user's fields |
| AuthContext.NoUserNoRole | src/contexts/AuthContext.js:208-223 | with no user every role predicate is false |
| AuthContext.TokenUser | src/contexts/AuthContext.js:125 | the start-up fallback user holds only the token |
| AuthContext.CredentialUser | src/contexts/AuthContext.js:157-160 | the login fallback user holds only the email and the token |
| AuthContext.LoginUser | src/contexts/AuthContext.js:155-160 | the user `login` stores: the fetched profile, else the `{email, token}` fallback |
| AuthContext.FallbackUsersHaveNoRole | src/contexts/AuthContext.js:157-160 | both fallback users are authenticated identities without any role or admin access |
| AuthContext.InitEffect | src/contexts/AuthContext.js:113-134 | without a token loading ends and nothing else changes; with one the session is authenticated with the profile or the `{token}` fallback; consistency is kept |
| AuthContext.InitOutcomes | src/contexts/AuthContext.js:118-129 | from the initial state, no token ends signed out and not loading; a token without a profile ends signed in as the token user |
| AuthContext.LoginEffect | src/contexts/AuthContext.js:150-175 | accepted credentials sign in with the profile or the `{email, token}` fallback; a rejection signs out with the rejection's message |
| AuthContext.AttemptResult | src/contexts/AuthContext.js:167-192 | login and register never throw: the result is a success exactly when the gateway accepted, carrying its response, else a failure carrying the message |
| AuthContext.RegisterEffect | src/contexts/AuthContext.js:178-194 | success ends loading and leaves the session as it was; failure signs out with the message |
| AuthContext.RegisterDoesNotLogIn | src/contexts/AuthContext.js:63-68 | registering never authenticates an anonymous session |
| AuthContext.AuthStore.constructor | src/contexts/AuthContext.js:5-10 | the session starts loading, signed out, without an error |
| AuthContext.AuthStore.Dispatch | src/contexts/AuthContext.js:109 | the new state is the reducer applied to the old one |
| AuthContext.AuthStore.Initialize | src/contexts/AuthContext.js:113-134 | the new state is `InitEffect`; the profile is requested only when a token is stored |
| AuthContext.AuthStore.Login | src/contexts/AuthContext.js:150-175 | the new state is `LoginEffect` and the result `AttemptResult`; the profile is requested only after accepted credentials |
| AuthContext.AuthStore.Register | src/contexts/AuthContext.js:178-194 | the new state is `RegisterEffect` and the result `AttemptResult`, after one sign-up call |
| AuthContext.AuthStore.SignOutUser | src/contexts/AuthContext.js:197-200 | the stored token is dropped and the session becomes signed out, idle and error-free |
| AuthContext.AuthStore.ClearErrorMessage | src/contexts/AuthContext.js:203-205 | only the error is cleared |
| RegisterPage.Strength | src/pages/register/index.js:98-130 | the strength is at most 5, counting the criteria met; the length criterion counts UTF-16 units, as `password.length` does |
| RegisterPage.StrengthUpTo | src/pages/register/index.js:98-130 | the partial count after `k` criteria is at most `k` |
| RegisterPage.Criterion | src/pages/register/index.js:102-126 | the five checks in page order: `length >= 6` in UTF-16 units, an upper-case letter, a lower-case letter, a digit, one of `!@#$%^&*` |
| RegisterPage.Feedback | src/pages/register/index.js:98-130 | the messages of the failing criteria, in checking order; its meaning is in the lemmas below |
| RegisterPage.StrengthPlusFeedbackUpTo | src/pages/register/index.js:98-130 | after `k` criteria the strength and the number of messages add up to `k` |
| RegisterPage.StrengthPlusFeedback | src/pages/register/index.js:98-130 | strength plus the number of feedback lines is 5 |
| RegisterPage.FeedbackEmptyIffAllUpTo | src/pages/register/index.js:98-130 | no message among the first `k` criteria exactly when all `k` hold |
| RegisterPage.FeedbackEmptyIffAll | src/pages/register/index.js:98-130 | no feedback exactly when all five criteria hold |
| RegisterPage.FirstFeedbackUpTo | src/pages/register/index.js:98-130 | the first message is that of the first failing criterion, for any prefix containing it |
| RegisterPage.FirstFeedbackIsFirstFailure | src/pages/register/index.js:197-200 | the password error shown is the first failing criterion's message, in checking order |
| RegisterPage.AstralPasswordIsStrong | src/pages/register/index.js:102 | a five-character password ending in an emoji has JavaScript length 6, so it meets all five criteria and gets no feedback |
| RegisterPage.StrengthClass | src/pages/register/index.js:132-139 | weak iff strength at most 2, medium iff 3 or 4, strong iff 5 or more |
| RegisterPage.ValidatePassword | src/pages/register/index.js:98-142 | the feedback is the failing criteria's messages in order, the class is that of the number of criteria met, and the two add up to 5 |
| RegisterPage.EmailMatchesIffRegex | src/pages/register/index.js:192 | the delimiter search holds exactly when some substring splits as `\S+@\S+\.\S+` |
| RegisterPage.EmailMatchUnanchored | src/pages/register/index.js:192 | text before and after a matching email does not spoil the match |
| RegisterPage.EmailMatches | src/pages/register/index.js:192 | some `@` and a later `.` split a substring into three non-empty runs without white space; `EmailMatchesIffRegex` relates it to the pattern |
| RegisterPage.AcceptableIffAllRules | src/pages/register/index.js:182-208 | the form is acceptable exactly when the name is not blank, the email is not blank and matches, all five password criteria hold and the confirmation is equal |
| RegisterPage.FormAcceptable | src/pages/register/index.js:182-208 | the conjunction of the form's rules; `AcceptableIffAllRules` spells them out |
| RegisterPage.ErrorsForMeaning | src/pages/register/index.js:183-207 | the error map has a `name` entry iff the name is blank; an `email` entry iff the email is blank ('Email é obrigatório') or does not match ('Email inválido'); a `password` entry with the first feedback line iff there is feedback; a `confirmPassword` entry iff the passwords differ; nothing else; and it is empty iff every rule passed |
| RegisterPage.ErrorsFor | src/pages/register/index.js:183-204 | the error dictionary built from the rule outcomes; its meaning is `ErrorsForMeaning` |
| RegisterPage.RulesOf | src/pages/register/index.js:186-204 | the rule outcomes of a form: blank name, blank email, email pattern, password feedback, differing confirmation |
| RegisterPage.FormErrors | src/pages/register/index.js:182-208 | the errors `validateForm` stores for a form; `FormErrorsEmptyIffAcceptable` relates it to acceptance |
| RegisterPage.FormErrorsEmptyIffAcceptable | src/pages/register/index.js:182-208 | `validateForm` stores no error exactly when the form is acceptable |
| RegisterPage.CheckRules | src/pages/register/index.js:186-204 | the rule outcomes computed step by step, the password rule through `validatePassword`, are those of the form |
| RegisterPage.ValidateFields | src/pages/register/index.js:182-208 | the errors built are the form's errors and the answer is true exactly when there are none |
| RegisterPage.CollectErrors | src/pages/register/index.js:183-204 | filling the dictionary one rule at a time gives the error map of the outcomes |
| RegisterPage.ClearFieldError | src/pages/register/index.js:158-163 | typing blanks the field's shown error and leaves every other entry and the key set unchanged |
| RegisterPage.CepMask | src/pages/register/index.js:83-95 | the result holds digits and at most one dash and is at most 9 long; with at most 5 digits it is the digits; otherwise the first five, a dash and digits 6 to 8 |
| RegisterPage.DigitsOfDashJoin | src/pages/register/index.js:88 | stripping non-digits from two digit runs joined by a dash gives the runs |
| RegisterPage.MaskKeepsLeadingDigits | src/pages/register/index.js:84-89 | the masked value's digits are the first (at most eight) digits typed |
| RegisterPage.MaskIdempotent | src/pages/register/index.js:83-95 | masking an already masked value changes nothing |
| RegisterPage.CepLookupTarget | src/pages/register/index.js:40-44 | the lookup runs exactly when eight digits remain, on those digits |
| RegisterPage.MaskedCepTriggersLookup | src/pages/register/index.js:40-95 | leaving a masked field triggers the lookup exactly when at least eight digits were typed |
| RegisterPage.RegisterForm.constructor | src/pages/register/index.js:11-28 | the four form fields and the address start empty, the country is Brasil, there are no errors and no strength class |
| RegisterPage.RegisterForm.HandleChange | src/pages/register/index.js:144-164 | the field takes the value; the strength class is recomputed only for the password; the field's shown error is blanked |
| RegisterPage.RegisterForm.HandleAddressChange | src/pages/register/index.js:166-180 | the address field takes the value and its shown error is blanked |
| RegisterPage.RegisterForm.HandleCepChange | src/pages/register/index.js:83-95 | the zip code becomes the mask of the typed text and nothing else changes |
| RegisterPage.RegisterForm.ValidateForm | src/pages/register/index.js:182-208 | the stored errors become exactly the form's errors, and the answer is true iff there are none |
| AdminProducts.FilterProducts | src/pages/admin/Products/index.js:65-70 | the result is a subsequence of the table, as long as the number of matching rows, and keeps a row exactly when its name or description contains the term case-insensitively and no category or its category is selected; duplicate rows are all kept |
| AdminProducts.Matching | src/pages/admin/Products/index.js:65-70 | the filter callback, named once so that the filter and the count use the same predicate |
| AdminProducts.ProductMatches | src/pages/admin/Products/index.js:65-69 | a row matches when its lower-cased name or description contains the lower-cased term and the category filter is empty or equal |
| AdminProducts.EmptyFilterShowsAll | src/pages/admin/Products/index.js:65-70 | an empty search with no category shows the whole table |
| AdminProducts.ToggleActive | src/pages/admin/Products/index.js:72-78 | the length is kept; rows with the id have `active` flipped and nothing else changed; other rows are unchanged |
| AdminProducts.ToggleKeepsIds | src/pages/admin/Products/index.js:72-78 | toggling keeps every id, and so unique ids stay unique |
| AdminProducts.ToggleTwice | src/pages/admin/Products/index.js:72-78 | toggling the same id twice restores the table |
| AdminProducts.RemoveById | src/pages/admin/Products/index.js:80-84 | the result is an order-preserving subsequence without the id, as long as the number of other rows, that keeps every other row; duplicate rows are all kept |
| AdminProducts.IdIsNot | src/pages/admin/Products/index.js:82 | the callback `p => p.id !== productId`, named once for the filter and the count |
| AdminProducts.SubsequenceKeepsUniqueIds | src/pages/admin/Products/index.js:82 | a subsequence of a table with unique ids has unique ids |
| AdminProducts.SubsequenceElements | src/pages/admin/Products/index.js:82 | every row of a subsequence occurs in the table |
| AdminProducts.RemoveKeepsUniqueIds | src/pages/admin/Products/index.js:80-84 | deleting keeps ids unique |
| AdminProducts.MaxId | src/pages/admin/Products/index.js:139 | the result is an id of the table and no id exceeds it |
| AdminProducts.NextId | src/pages/admin/Products/index.js:139 | the next id exceeds every id, so no row has it; it is 1 for an empty table |
| AdminProducts.ParseInt | src/pages/admin/Products/index.js:123 | NaN exactly when no digit follows the leading white space and optional sign. The value: leading white space never changes it (`ParseIntSkipsSpace`); text starting with a digit reads its leading digits (`ParseIntOfDigitStart`); a `+` or `-` followed by a digit reads the rest, negated for `-` (`ParseIntOfSignedDigitStart`). Together these fix the result for every input |
| AdminProducts.ParseSigned | src/pages/admin/Products/index.js:123 | after the white space, NaN exactly when no digit follows the optional sign |
| AdminProducts.ParseIntSkipsSpace | src/pages/admin/Products/index.js:123 | leading white space is skipped: `" 7"` parses as `"7"` |
| AdminProducts.TrimStartIdempotent | src/pages/admin/Products/index.js:123 | skipping white space twice is skipping it once |
| AdminProducts.ParseIntOfSignedDigitStart | src/pages/admin/Products/index.js:123 | a sign followed by a digit parses to the value after it, negated for `-`: `"+7"` is 7 and `"-7kg"` is -7 |
| AdminProducts.DigitPrefix | src/pages/admin/Products/index.js:123 | the longest run of digits at the start |
| AdminProducts.DigitPrefixOfDigits | src/pages/admin/Products/index.js:123 | a run of digits is read whole |
| AdminProducts.ParseIntOfDigitStart | src/pages/admin/Products/index.js:123 | text starting with a digit parses to the value of its leading run of digits |
| AdminProducts.ParseIntOfDigits | src/pages/admin/Products/index.js:123 | an unsigned run of digits parses to its decimal value |
| AdminProducts.ParseIntOfNegatedDigits | src/pages/admin/Products/index.js:123 | a minus followed by a run of digits parses to the negated decimal value |
| AdminProducts.TrimStartKeepsLeading | src/pages/admin/Products/index.js:123 | a leading digit or sign is not white space, so skipping white space keeps the text |
| AdminProducts.ParseIntRoundTrip | src/pages/admin/Products/index.js:100-123 | for every integer, `parseInt` of its decimal text (with `-` when negative) gives the integer back: the edit form's `String(stock)` survives the submit |
| AdminProducts.NumericField | src/pages/admin/Products/index.js:122-133 | empty text or NaN gives 0; otherwise the parsed value |
| AdminProducts.ApplyForm | src/pages/admin/Products/index.js:127-136 | the edited row takes every field from the form, converts price and stock, and keeps its id |
| AdminProducts.UpdateById | src/pages/admin/Products/index.js:125-136 | the length and every id are kept; rows with the edited id are rewritten from the form; other rows are unchanged |
| AdminProducts.NewProduct | src/pages/admin/Products/index.js:138-149 | the new row has id `max + 1` (1 when empty), the form's fields, and the placeholder image for an empty one |
| AdminProducts.CreateKeepsUniqueIds | src/pages/admin/Products/index.js:138-149 | appending the new row keeps ids unique |
| AdminProducts.AppendFreshIdKeepsUniqueIds | src/pages/admin/Products/index.js:140 | appending a row whose id is not in the table keeps ids unique |
| AdminProducts.UpdateKeepsUniqueIds | src/pages/admin/Products/index.js:125-136 | updating keeps ids unique |
| AdminProducts.ProductTable.constructor | src/pages/admin/Products/index.js:10-11 | the table starts with the given unique-id rows, no edited row and the form closed |
| AdminProducts.ProductTable.HandleToggleActive | src/pages/admin/Products/index.js:72-78 | the table becomes `ToggleActive` of the old one, ids stay unique and the form state is kept |
| AdminProducts.ProductTable.HandleDelete | src/pages/admin/Products/index.js:80-84 | after a confirmed prompt the table becomes `RemoveById` of the old one, else it is unchanged; ids stay unique |
| AdminProducts.ProductTable.OpenCreateForm | src/pages/admin/Products/index.js:87-91 | the form opens for a new row with the table unchanged |
| AdminProducts.ProductTable.OpenEditForm | src/pages/admin/Products/index.js:93-105 | the form opens on the row's id with the table unchanged |
| AdminProducts.ProductTable.HandleFormSubmit | src/pages/admin/Products/index.js:119-152 | while editing the table becomes `UpdateById`, otherwise the old table plus `NewProduct`; ids stay unique and the form closes |
| AdminStats.ListingTotal | src/services/admin.service.js:181-183 | `total`, else the item array's length, else 0 |
| AdminStats.OrderAmount | src/services/admin.service.js:192 | `totalAmount`, else `total` (0 when both are missing) |
| AdminStats.PendingOrders | src/services/admin.service.js:187 | the number of pending orders, at most the list length |
| AdminStats.Revenue | src/services/admin.service.js:190-192 | the left fold equals the sum of the amounts of the orders not cancelled |
| AdminStats.RevenueIsMaskedSum | src/services/admin.service.js:190-192 | the revenue equals the sum over all orders with cancelled ones counted as zero |
| AdminStats.RevenueAppend | src/services/admin.service.js:190-192 | appending a cancelled order leaves the revenue unchanged; appending any other adds its amount |
| AdminStats.RevenueNonNegative | src/services/admin.service.js:190-192 | with non-negative amounts the revenue is non-negative |
| AdminStats.Summarize | src/services/admin.service.js:197-203 | the row keeps id, status and date, shows the order amount, and defaults the customer to 'Cliente' |
| AdminStats.RecentOrders | src/services/admin.service.js:195-203 | min(5, n) rows summarising the first orders, in list order |
| AdminStats.StatsOf | src/services/admin.service.js:180-213 | the counters are the listing totals, the category count (0 for a non-array), the list length and the pending count (at most that length); the revenue is the non-cancelled sum; the recent rows are `RecentOrders` |
| AdminStats.GetDashboardStats | src/services/admin.service.js:175-226 | any failure, including an order object without an `orders` array, yields all-zero statistics; otherwise the statistics of the order array |
| AdminStats.StatsBounds | src/services/admin.service.js:185-203 | whatever arrives, pending is at most total orders and the recent list has at most five rows and at most as many as the orders |
| OrdersManagement.FindOption | src/pages/admin/AdminPanel/OrdersManagement.js:81 | a found option is in the table with that value; none is found exactly when no option has the value |
| OrdersManagement.StatusColor | src/pages/admin/AdminPanel/OrdersManagement.js:80-83 | the found option's colour, or 'gray' |
| OrdersManagement.StatusLabel | src/pages/admin/AdminPanel/OrdersManagement.js:85-88 | the found option's label, or the status itself |
| OrdersManagement.StatusValuesDistinct | src/pages/admin/AdminPanel/OrdersManagement.js:13-20 | no two status options share a value |
| OrdersManagement.LookupsFollowTable | src/pages/admin/AdminPanel/OrdersManagement.js:80-88 | every status in the table gets its configured colour and label; any other status gets 'gray' and itself |
| OrdersManagement.FilterOrders | src/pages/admin/AdminPanel/OrdersManagement.js:90-92 | 'all' returns the orders unchanged; every row shown is an order of the list |
| OrdersManagement.StatusIs | src/pages/admin/AdminPanel/OrdersManagement.js:92 | the callback `order => order.status === filterStatus` |
| OrdersManagement.FilterOrdersKeepsExactly | src/pages/admin/AdminPanel/OrdersManagement.js:90-92 | a status filter gives an order-preserving subsequence of the orders that has that status throughout, contains every order with it, and is as long as the number of such orders |
| OrdersManagement.ErrorText | src/pages/admin/AdminPanel/OrdersManagement.js:60 | the response's message when present and non-empty, else the fallback; never empty |
| OrdersManagement.LoadCalls | src/pages/admin/AdminPanel/OrdersManagement.js:26-44 | a successful admin listing (page 1, 100 rows) is the only request; when it fails the customer's own orders are requested next, and nothing else |
| OrdersManagement.LoadedOrders | src/pages/admin/AdminPanel/OrdersManagement.js:26-44 | the order list after `loadOrders`: the admin listing, else the customer's listing, else the previous list |
| OrdersManagement.OrdersPanel.constructor | src/pages/admin/AdminPanel/OrdersManagement.js:5-11 | the panel starts loading with no orders, no selection, no messages and filter 'all' |
| OrdersManagement.OrdersPanel.LoadOrders | src/pages/admin/AdminPanel/OrdersManagement.js:26-44 | the orders become the first listing that arrived (kept when both fail, with 'Erro ao carregar pedidos'); loading ends; the selection is untouched |
| OrdersManagement.OrdersPanel.HandleViewDetails | src/pages/admin/AdminPanel/OrdersManagement.js:46-49 | the order is selected and the modal opens |
| OrdersManagement.OrdersPanel.HandleUpdateStatus | src/pages/admin/AdminPanel/OrdersManagement.js:51-62 | on success the list is reloaded and an open selection with the same id takes the new status, any other selection is kept; on failure only the error changes |
| OrdersManagement.OrdersPanel.HandleDelete | src/pages/admin/AdminPanel/OrdersManagement.js:64-78 | a declined prompt changes nothing (loading included) and calls nothing; a failed delete only sets the error; a successful one reloads (loading ends, the error is set only when both listings fail), shows the success message and closes an open modal, clearing the selection |
| OrdersManagement.OrdersPanel.CloseModal | src/pages/admin/AdminPanel/OrdersManagement.js:94-97 | the modal closes and the selection is cleared |
| OrdersManagement.OrdersPanel.Visible | src/pages/admin/AdminPanel/OrdersManagement.js:90-92 | under 'all' every order is visible; every visible row is an order of the list |
| ProductsPage.NormalizeListing | src/pages/products/index.js:38-48 | an array body gives its items, their count and one page; an object gives `products` or none, `total` if defined else the products' count, and `totalPages` or 1 |
| ProductsPage.ArrayIsObjectWithDefaults | src/pages/products/index.js:38-48 | the array shape reads exactly as an object with only its `products` field |
| ProductsPage.MissingProductsListNothing | src/pages/products/index.js:45-46 | an object without products lists nothing, with total 0 when `total` is missing too |
| ProductsPage.LoadCall | src/pages/products/index.js:29-35 | a selected, non-empty category asks the category listing, anything else the full listing, with 12 per page |
| ProductsPage.CatalogPage.constructor | src/pages/products/index.js:14-22 | the page starts loading on page 1 of 1 with no products, category or error |
| ProductsPage.CatalogPage.LoadProducts | src/pages/products/index.js:24-55 | the request is `LoadCall` of the current page and category; success stores the normalised listing with no error; failure keeps the listing and shows the message or the default; loading ends; the page stays above 0 |
| ProductsPage.CatalogPage.HandleSelectCategory | src/pages/products/index.js:75-78 | the category is selected and the page resets to 1 |
| ProductsPage.CatalogPage.HandleClearCategory | src/pages/products/index.js:80-83 | the category is cleared and the page resets to 1 |
| ProductsPage.CatalogPage.NextEnabled | src/pages/products/index.js:178 | the next button is enabled when idle and below the last page |
| ProductsPage.CatalogPage.PrevEnabled | src/pages/products/index.js:172 | the previous button is enabled when idle and past page 1 |
| ProductsPage.CatalogPage.HandleNextPage | src/pages/products/index.js:85-178 | the page moves forward by one and, when the button was enabled, stays within the known pages |
| ProductsPage.CatalogPage.HandlePrevPage | src/pages/products/index.js:86 | the page becomes max(1, p - 1), so it never drops below 1 |
| ProductsPage.CatalogPage.CurrentView | src/pages/products/index.js:139-155 | loading is shown exactly while loading; the error exactly when idle with a non-empty error; the empty notice and the grid otherwise, by whether there are products |
| CartPage.Shipping | src/pages/cart/index.js:13 | the fee is 20 reais exactly when the cart has lines, else 0 |
| CartPage.OrderTotal | src/pages/cart/index.js:13-14 | 0 for an empty cart; otherwise the items' price plus the fee |
| CartPage.ShippingChargedOnce | src/pages/cart/index.js:13-14 | adding a line to a non-empty cart adds only its subtotal |
| CartPage.ConfirmDisabled | src/pages/cart/index.js:114 | the confirm button is disabled while processing or for an empty cart |
| CartPage.EnabledConfirmChargesShipping | src/pages/cart/index.js:114 | an enabled confirm button means an idle page and a non-empty cart, whose total includes the fee |
| CartPage.ConfirmMessage | src/pages/cart/index.js:28-33 | the success text, else the result's error, else the default |
| CartPage.FailureShowsStoreError | src/pages/cart/index.js:32 | a failed order shows the store's error, which is never empty |
| CartPage.CheckoutPage.constructor | src/pages/cart/index.js:10-12 | the page starts idle with no message and payment method 'pix' |
| CartPage.CheckoutPage.HandleConfirm | src/pages/cart/index.js:18-34 | a visitor is sent to /login with no call and no change; an empty cart changes nothing; otherwise one order call with the chosen payment method, the cart becomes `ConfirmEffect`, processing ends, the message follows the result, and a created order navigates to /meus-pedidos |
| CartPage.CheckoutPage.SetPaymentMethod | src/pages/cart/index.js:106 | only the payment method changes |
| ProductCard.StarRow | src/components/ProductCard/index.js:25-39 | exactly five stars, star `i` filled iff `i <= rating` |
| ProductCard.Clamp | src/components/ProductCard/index.js:27-28 | the rating clamped to 0..5 |
| ProductCard.RenderStars | src/components/ProductCard/index.js:25-39 | the loop builds exactly `StarRow(rating)` |
| ProductCard.FilledPrefixCount | src/components/ProductCard/index.js:27-28 | a row whose filled stars are its first `m` has `m` filled stars |
| ProductCard.FilledStars | src/components/ProductCard/index.js:25-39 | the number of filled stars is min(max(rating, 0), 5) |
| ProductCard.Badges | src/components/ProductCard/index.js:87-97 | 'Esgotado' iff stock is 0, 'Últimas unidades' iff stock is 1 to 4, never both |
| ProductCard.StockLabel | src/components/ProductCard/index.js:167 | "N em estoque" for positive stock, else 'Indisponível' |
| ProductCard.StockLabelShowsCount | src/components/ProductCard/index.js:167 | the label of a stocked product starts with digits that read back as the stock |
| ProductCard.AddDisabled | src/components/ProductCard/index.js:144 | the add button is disabled while adding or when the stock is 0 |
| ProductCard.SoldOutAgrees | src/components/ProductCard/index.js:144 | a sold-out product has a disabled button, the sold-out badge and the unavailable label; an idle card with stock has an enabled button |
| ProductCard.Card.constructor | src/components/ProductCard/index.js:13-14 | the card starts idle with no message |
| ProductCard.Card.HandleAddToCart | src/components/ProductCard/index.js:42-68 | a visitor gets the login-required message and no cart call; otherwise one add call for one unit, then the success message (and the callback when supplied) or the error or default; loading ends |
| RoleRoute.Guard | src/routes/ProtectedRoute.js:12-48 | spinner while loading; redirect to `redirectTo` (default /login) for a visitor; /unauthorized when roles are required and none matches; children exactly when idle, signed in and (no roles required or one matches); never the denied panel |
| RoleRoute.AnyRole | src/routes/ProtectedRoute.js:38 | `allowedRoles.some(role => hasRole(role))` |
| RoleRoute.RolesMeanRoleField | src/routes/ProtectedRoute.js:37-47 | with roles required, the children are shown only to a user whose role field is among them |
| RoleRoute.AdminFlagAloneIsUnauthorized | src/routes/ProtectedRoute.js:37-43 | a user with the admin flag but no role is sent to /unauthorized by a route requiring 'admin' |
| AdminRoute.Guard | src/components/AdminRoute/index.js:4-54 | spinner while loading; redirect to /login carrying the location for a visitor; the denied panel without admin access; children exactly when idle, signed in and with admin access |
| AdminRoute.AgreesWithRoleGuard | src/components/AdminRoute/index.js:23 | for users without the admin flag, the admin guard admits exactly those the role guard admits for the admin and manager roles |
| AuthRoute.Guard | src/components/ProtectedRoute/index.js:4-32 | spinner while loading; a visitor on a protected page goes to /login with `from`; a signed-in user on a visitor page goes to `from` or '/'; children exactly when idle and the session matches `requireAuth` |
| AuthRoute.DefaultRequiresSession | src/components/ProtectedRoute/index.js:4-21 | with the default `requireAuth`, a signed-in user gets the children and a visitor goes to /login |
| AuthRoute.LoginRoundTrip | src/components/ProtectedRoute/index.js:18-28 | a visitor is sent to /login with `from` set to the location, and once signed in the login page's guard sends them back to it |
| Text.TrimEmptyIffBlank | src/pages/register/index.js:186-190 | `trim()` gives the empty string exactly when the text is all white space |
| Text.Trim | src/pages/register/index.js:186-190 | `trim()`: white space removed at both ends; `TrimEmptyIffBlank` states when it is empty |
| Text.ContainsIffOccurs | src/pages/admin/Products/index.js:66-67 | `includes` holds exactly when the term occurs at some index |
| Text.Contains | src/pages/admin/Products/index.js:66-67 | `includes`; `ContainsIffOccurs` states it as an occurrence at some index |
| Text.ToLower | src/pages/admin/Products/index.js:66-67 | `toLowerCase()` character by character, with the same length |
| Text.Digits | src/pages/register/index.js:84 | `replace(/\D/g, '')`: only digits remain, no more than the input's length |
| Text.NatToStringRoundTrip | src/components/ProductCard/index.js:167 | reading back the printed digits of a natural gives the number |
| Text.NatToString | src/components/ProductCard/index.js:167 | `String(n)`: a non-empty run of digits without a leading zero |
| Text.JsLength | src/pages/register/index.js:102 | JavaScript's `length`: at least the number of characters and at most twice it, equal to it when every character is in the Basic Multilingual Plane |
| Text.JsLengthOfSurrogatePair | src/pages/register/index.js:102 | an emoji counts two units: a five-character string with one has length 6 |

## Left out

- HTTP and storage: the gateways' requests, token storage and `window.location` handling. Their answers are parameters.
- The ViaCEP request in `handleCepBlur` and how its answer fills the address: an external service.
- Time: `setTimeout` clearing of messages and the delayed navigation are not modelled. The navigation target is returned instead. `Date.now()` is an opaque stamp parameter.
- Concurrency: the parallel product fetches of `refreshCart` and overlapping refreshes are one sequential step. `LastRefreshWins` states what the later of two reads decides.
- In the orders panel, the reloads that the handlers do not await are modelled as completing before the handler returns.
- Floating point: prices and amounts are integer cents, and `parseFloat` is the parameter `parsedPrice`. `Math.round` of ratings and currency formatting (`toLocaleString`, `Intl.NumberFormat`) are not modelled.
- Text.LowerChar: maps ASCII and Latin-1 capitals only, not the full Unicode case mapping of `toLowerCase`.
- The `data.orders || data || []` unwrapping in `loadOrders` is not modelled: the outcome carries the order list already unwrapped.
- A null listing body on the catalogue page, which throws inside `loadProducts`, appears only as a failed fetch with its message.
- The catalogue page's category load and `getCategoryIcon`: presentation.
- The product card's rating row is shown only when `ratings > 0`; that condition is not modelled.
- `openEditForm` itself is modelled (`ProductTable.OpenEditForm`). Its conversion of a row into form text with `String(...)` is not, and neither is `handleFormChange`, which edits the form: the submitted form is a parameter. `closeForm` is not modelled.
- The registration page's `handleSubmit` and the context's error-clearing effect: they drive the session store, which is modelled in `AuthContext`.
- The mock product list loaded by the admin table: the table starts from any list with unique ids.
- OrdersManagement.FindOption: states only that a found option has the status, not that it is the first such option. The table's values are distinct (`StatusValuesDistinct`), so the two agree there.
- The orders panel's `ErrorText` allows a rejection carrying a server message. Through the app's own gateway (src/services/api.js:42-47) every rejection is a bare `Error` without `response`, so at OrdersManagement.js:60 and :76 the message is always absent and the panel always shows the fallback text.
- The JSX markup and styling of every component.

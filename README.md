# Storefront client core: authentication, guard, pages and the `.env` loader

This project models the client-side core of a small Next.js storefront that
talks to a Supabase backend. It then proves properties of that model in
Dafny.

- **Authentication context** (`context/auth-context.tsx`). This is the one
  long-lived mutable state: user, session, profile and a loading flag. It is
  driven by three kinds of event: the answer to the startup session request,
  the answers to profile queries, and the gateway's auth-state-change
  notifications. The model is the class `Auth.AuthProvider`. Each event
  handler is a method that takes the gateway's answer as a parameter and
  appends the gateway calls it makes to `calls`.
- **Admin guard** (`components/auth/admin-guard.tsx`). Module `AdminGuard`
  holds the guard's decision, its navigation effect and its render path, and
  a lemma ties the three together.
- **Checkout** (`app/checkout/page.tsx`). Module `Checkout` holds the
  customer form, the "all three fields filled in" check, the order and
  order-item rows, and placing a cash-on-delivery order. The effects on the
  gateway, the cart and the router are returned as a value.
- **Order history** (`app/orders/page.tsx`). Module `Orders` collects the
  product ids, indexes the fetched products by id, and names each item with
  a two-level fallback. It also builds the per-order card: short id, status
  badge and the four-step stepper. The two collecting loops are methods
  proved against recursive specification functions.
- **Add product** (`app/admin/products/add/page.tsx`). Module `AddProduct`
  keeps the category list sorted and free of duplicates as categories are
  added. It also models add-category mode and the defaults of a new product
  row. JavaScript's default `sort()` is modelled as the unique sorted
  permutation (`StringSort`).
- **Shop** (`app/shop/page.tsx`). Module `Shop` models the admin bounce, the
  loading gate, the fetch handlers, the category filter and the result count.
- **Profile** (`app/profile/page.tsx`). Module `ProfilePage` models the form
  prefill and redirect effect, and saving the three contact fields.
- **Admin dashboard** (`app/admin/page.tsx`). Module `AdminDashboard`
  models the table counts and the active-cart count, which is the number of
  distinct users with a cart row.
- **`.env.local` loader**. The same code sits at lines 6-15 of both
  `scripts/check-schema.ts` and `scripts/verify-supabase.ts`, and it is
  modelled once in module `EnvFile`:
  - the line parser;
  - the order in which lines are applied (the last line wins);
  - the `process.env` update loop. Node's environment refuses the empty
    name, so a line whose key trims to nothing sets no variable.
- **Scenarios** (`Scenarios`). These run whole event sequences through a
  fresh provider and state what the guard then decides.

`JsString` models the JavaScript string operations the core uses:
- `trim`, stripping the ECMAScript WhiteSpace and LineTerminator characters;
- `split` on one character, proved to be the inverse of joining;
- `includes`;
- `toLowerCase` on ASCII letters.

The gateway, the router, the clock, the file system and the browser are not
modelled as code. Their answers are method parameters. The requests made to
them are results: a navigation target, an insert payload, the list of
gateway calls.

## Where the code and the documented behaviour differ

The model follows the code in each of these cases.

- **Guard redirect.** The documented behaviour is a login redirect that
  carries a return path (`/login?returnUrl=…`). The guard navigates to exactly `/login`
  (`components/auth/admin-guard.tsx:14`). Only checkout adds a return path,
  as `/login?redirect=/checkout`.
- **Failed profile fetch.** The documented behaviour is that a failed
  profile fetch leaves the profile null. The code only logs the error and keeps the profile it
  had (`context/auth-context.tsx:44-51`).
  - At startup that profile is still null (`Scenarios.ProfileUnreadableAtStartup`).
  - When the gateway replaces one user's session directly by another's, and
    the second profile query fails, the first user's profile stays in place
    (`Scenarios.StaleProfileAfterUserSwitch`). If the first user was an
    admin, the guard then lets the second user through.
- **`signOut`.** This does not clear local state itself. It signs out at
  the gateway and navigates. User, session and profile are cleared by the
  auth-state-change event that follows (`Scenarios.AdminThenSignedOut`).
- **Order total.** Checkout stores the cart total it is handed and does not
  recompute it. `Checkout.OrderTotalMatchesItems` shows the stored total
  equals the sum over the order items exactly when that handed-in total is
  the cart's Σ price × quantity.

## Model

| member | source | states |
|---|---|---|
| Auth.UseAuth | context/auth-context.tsx:112-117 | succeeds exactly inside a provider, returning the provider's value; outside one, fails with the fixed error text |
| Auth.IsInvalidRefresh | context/auth-context.tsx:71 | an error counts as a rejected refresh token exactly when its message contains `Refresh Token` at some position or its code is `invalid_grant` |
| Auth.AuthProvider.constructor | context/auth-context.tsx:29-32 | starts with no user, session or profile, loading, not subscribed, no gateway calls |
| Auth.AuthProvider.FetchProfile | context/auth-context.tsx:36-52 | a returned row becomes the profile; a returned or thrown error keeps the old profile; one profile query is recorded |
| Auth.AuthProvider.InitializeAuth | context/auth-context.tsx:54-81 | a session answer sets the session and its user and fetches the profile only when there is a user; an invalid-refresh error signs out once and clears all three; any other error changes none of them; loading always ends and the subscription is made, keeping the user equal to the session's user |
| Auth.AuthProvider.OnAuthStateChange | context/auth-context.tsx:81-92 | sets the session and its user; with a session, refetches the profile; with none, clears the profile and makes no call; loading is over afterwards |
| Auth.AuthProvider.SignOut | context/auth-context.tsx:100-103 | exactly one gateway sign-out, navigation to `/login`, no other state change |
| AdminGuard.Decide | components/auth/admin-guard.tsx:11-33 | for each of the four outcomes, the exact condition: waiting exactly while loading; `/login` exactly for no user; `/` exactly for a non-admin user, including one with no profile; render exactly for an admin |
| AdminGuard.Navigation | components/auth/admin-guard.tsx:11-19 | never navigates while loading; navigates only to `/login` or `/` |
| AdminGuard.ViewOf | components/auth/admin-guard.tsx:21-33 | the spinner shows exactly while loading |
| AdminGuard.EffectAndRenderFollowDecision | components/auth/admin-guard.tsx:11-33 | the effect navigates exactly to the decision's redirect target; the render path shows the spinner, nothing and the children exactly for wait, redirect and render; navigating and showing the children never happen together |
| Checkout.LoginRedirect | app/checkout/page.tsx:23-27 | navigates exactly when auth has loaded without a user, and then to the login page with the checkout return path |
| Checkout.WithField | app/checkout/page.tsx:29-32 | the named field takes the new value and the other fields keep theirs; an unknown name changes no field |
| Checkout.DetailsComplete | app/checkout/page.tsx:38 | the form passes exactly when each of the three fields holds a character that is not whitespace; a passing field is never empty |
| Checkout.BuildOrder | app/checkout/page.tsx:78-89 | the order row carries the user id, the handed-in total, status `pending`, payment `cod` and the untrimmed customer fields |
| Checkout.BuildOrderItems | app/checkout/page.tsx:97-102 | one item per cart line, in order, with the order id and the line's product id, quantity and price |
| Checkout.ErrorText | app/checkout/page.tsx:114 | a non-empty message is shown as it is; otherwise the fallback; never empty |
| Checkout.OrderTotalMatchesItems | app/checkout/page.tsx:97-102 | the sum over the built items equals the cart's Σ price × quantity, so an order placed with that total is consistent with its items |
| Checkout.CheckoutPage.constructor | app/checkout/page.tsx:13-21 | not placing, no error, all three fields empty |
| Checkout.CheckoutPage.InputChange | app/checkout/page.tsx:29-32 | the form becomes the one with that field set |
| Checkout.CheckoutPage.PlaceOrder | app/checkout/page.tsx:34-118 | no user: nothing; a blank field: only the fixed validation message; otherwise the order is inserted, its items only after the order succeeds; the cart is cleared and the page goes home exactly when both inserts succeed; each failure shows its own message or the fallback; `placingOrder` is false at the end |
| Orders.AuthEffect | app/orders/page.tsx:37-45 | redirects to `/login` exactly when auth has loaded without a user; fetches the orders of the user's id exactly when there is a user |
| Orders.ItemIdsExact | app/orders/page.tsx:68-70 | an id is collected from an order's items exactly when some item carries it as a truthy product id |
| Orders.ProductIdsExact | app/orders/page.tsx:66-71 | the collected set holds the truthy product id of every item of every order, and nothing else |
| Orders.CollectProductIds | app/orders/page.tsx:66-71 | the two nested loops build exactly that set |
| Orders.IndexByIdLastWins | app/orders/page.tsx:81-83 | the products map has exactly the fetched ids as keys, and a repeated id maps to its last row |
| Orders.BuildProductsMap | app/orders/page.tsx:74-83 | the loop builds exactly that map |
| Orders.FindById | app/orders/page.tsx:90 | `find` gives nothing exactly when no catalogue entry has the id, and otherwise the first entry with it |
| Orders.ShownProductOf | app/orders/page.tsx:90-96 | the fetched product first, then the first catalogue entry, otherwise `Unknown Product` with no image; the shown name is never empty |
| Orders.ShapeItems | app/orders/page.tsx:89-98 | one shaped item per item, in order, keeping its own fields and gaining its display product |
| Orders.MapOrders | app/orders/page.tsx:87-99 | one shaped order per order, in order, keeping id, date, status and stored total; items missing stay missing, and otherwise are shaped |
| Orders.OrdersPage.constructor | app/orders/page.tsx:34-35 | no orders, loading |
| Orders.OrdersPage.FetchOrders | app/orders/page.tsx:47-107 | a failed query keeps the orders; a successful one queries products exactly when some id was collected and replaces the orders with the shaped ones; loading ends either way |
| Orders.IndexOf | app/orders/page.tsx:201 | `indexOf`: -1 exactly when the status is absent, and otherwise its first position |
| Orders.CurrentStepIndex | app/orders/page.tsx:201 | the position of the lower-cased status among the four steps, and -1 exactly when it is none of them |
| Orders.Stepper | app/orders/page.tsx:200-203 | four steps; a step is current exactly when it is the lower-cased status, and completed exactly when the status is that step or a later one |
| Orders.StepperShape | app/orders/page.tsx:200-203 | completed steps form a prefix; at most one step is current, and it is the last completed one; a status that is no step, in any letter case, completes none; the current step is the status's step and the completed ones are it and those before it |
| Orders.StepperShown | app/orders/page.tsx:192 | the stepper is shown exactly when the badge is not red, that is, unless the status is exactly `cancelled` |
| Orders.CancelledUpperCaseShowsEmptyStepper | app/orders/page.tsx:192-203 | the `cancelled` test is case-sensitive while the step lookup lower-cases: `CANCELLED` shows the stepper with no step completed |
| Orders.BadgeOf | app/orders/page.tsx:179-185 | green exactly for `delivered`, red exactly for `cancelled` |
| Orders.LineViews | app/orders/page.tsx:230-247 | one line per item showing its name, quantity and price × quantity |
| Orders.Card | app/orders/page.tsx:157-253 | a card exactly for an order with items; short id is the first eight characters; the total shown is the stored total; the stepper shows exactly when the status is not `cancelled`; the lines are the item line views, one per item, in order |
| AddProduct.Without | app/admin/products/add/page.tsx:43 | the name is gone, and every other entry stays as often as before |
| AddProduct.WithCategory | app/admin/products/add/page.tsx:43 | the new list is sorted, holds the name exactly once and every other entry as often as before, and stays free of duplicates |
| AddProduct.AnySortAgrees | app/admin/products/add/page.tsx:43 | any sorted permutation of the filtered list plus the name equals the modelled result, whatever algorithm sorts |
| AddProduct.WithCategoryIdempotent | app/admin/products/add/page.tsx:43 | adding the same name twice gives the same list as adding it once |
| AddProduct.Names | app/admin/products/add/page.tsx:24 | the category names, in the order returned |
| AddProduct.BuildNewProduct | app/admin/products/add/page.tsx:66-74 | the form's four values with stock 100, the placeholder image and not popular |
| AddProduct.Tolerated | app/admin/products/add/page.tsx:41 | an insert without error is tolerated; an error is tolerated exactly when its code is the unique violation `23505` |
| AddProduct.AddProductPage.constructor | app/admin/products/add/page.tsx:16-18 | no categories, empty input, not adding |
| AddProduct.AddProductPage.FetchCategories | app/admin/products/add/page.tsx:20-30 | the returned names, or none without data |
| AddProduct.AddProductPage.TypeNewCategory | app/admin/products/add/page.tsx:138 | the input takes the typed value |
| AddProduct.AddProductPage.SelectCategory | app/admin/products/add/page.tsx:153-158 | `NEW` enters add-category mode and resets the select; any other value is selected and does not change the mode |
| AddProduct.AddProductPage.CancelAddCategory | app/admin/products/add/page.tsx:144 | leaves add-category mode |
| AddProduct.AddProductPage.HandleAddCategory | app/admin/products/add/page.tsx:34-53 | a blank name does nothing; otherwise the trimmed name is inserted; on success or a unique violation the list gains it, the mode ends and the input clears; any other error changes nothing and alerts with its message |
| Shop.AdminRedirect | app/shop/page.tsx:22-26 | navigates exactly when auth has loaded and the profile is an admin's, and then to `/admin` |
| Shop.OfCategory | app/shop/page.tsx:65 | only products of the category, each as often as in the input, in input order |
| Shop.Filter | app/shop/page.tsx:64-66 | everything when no category is selected, the category's products otherwise |
| Shop.ViewOf | app/shop/page.tsx:62-119 | loading exactly while auth or products load; otherwise the filtered products, the title, a count equal to their number, and the empty message exactly at count zero |
| Shop.ShopPage.constructor | app/shop/page.tsx:15-18 | nothing selected, no products or categories, loading |
| Shop.ShopPage.FetchProducts | app/shop/page.tsx:46-60 | the returned rows, or none without data; a failed query keeps the products; loading ends either way |
| Shop.ShopPage.FetchCategories | app/shop/page.tsx:33-44 | the rows when there is at least one, otherwise none; a throw keeps the categories |
| Shop.ShopPage.SelectCategory | app/shop/page.tsx:78-94 | the chosen category, or none for "All Products" |
| ProfilePage.ProfileForm.constructor | app/profile/page.tsx:14-18 | empty fields, not saving, no message |
| ProfilePage.ProfileForm.AuthEffect | app/profile/page.tsx:20-30 | redirects exactly when auth has loaded without a user; a profile overwrites the three fields, with an absent value giving the empty string; without a profile the fields stay |
| ProfilePage.ProfileForm.BeginSave | app/profile/page.tsx:34-35 | saving, with the old message cleared |
| ProfilePage.ProfileForm.Save | app/profile/page.tsx:32-58 | no user: the fixed failure and no update; otherwise exactly the user's row is updated with the three fields; success or the gateway's message; saving is false and a message is shown at the end |
| AdminDashboard.UserIdsExact | app/admin/page.tsx:25 | a user id is in the set exactly when some cart row carries it |
| AdminDashboard.UserIdsAsSet | app/admin/page.tsx:25 | the set is the set of the rows' user ids |
| AdminDashboard.UserIdsAtMostRows | app/admin/page.tsx:25 | never more active carts than cart rows |
| AdminDashboard.ActiveCartsCountUsersOnce | app/admin/page.tsx:22-25 | another row of a known user leaves the count; a row of a new user adds one |
| AdminDashboard.StatsOf | app/admin/page.tsx:19-32 | each count, or 0 when null; active carts is the number of distinct user ids, at most the number of rows, 0 without rows |
| AdminDashboard.Dashboard.constructor | app/admin/page.tsx:9-14 | all four statistics start at 0 |
| AdminDashboard.Dashboard.FetchStats | app/admin/page.tsx:17-36 | one update with the fetched statistics, or no change when a query throws |
| EnvFile.SplitAtFirst | scripts/check-schema.ts:10 | the first piece of `split('=')` is the text before the first `=`; with an `=` the other pieces are those of the text after it |
| EnvFile.ParseLine | scripts/check-schema.ts:10-12 | only a line with an `=` gives a pair, and neither its key nor its value starts or ends with whitespace |
| EnvFile.ParseLineMeaning | scripts/check-schema.ts:10-12 | a line sets a variable exactly when it has an `=`, with non-empty text before it and up to the next `=`; key and value are those texts trimmed |
| EnvFile.ValueStopsAtSecondEquals | scripts/verify-supabase.ts:10 | anything from a second `=` on is dropped from the value |
| EnvFile.IncompleteLinesIgnored | scripts/verify-supabase.ts:10-11 | an empty key, nothing after the `=`, or no `=` at all sets nothing |
| EnvFile.SurroundingSpaceTrimmed | scripts/check-schema.ts:12 | whitespace around key and value, a carriage return included, is trimmed away |
| EnvFile.BlankValueSetsEmpty | scripts/verify-supabase.ts:11-12 | a whitespace-only value still sets the key, to the empty string |
| EnvFile.BlankKeyIgnored | scripts/check-schema.ts:11-12 | a whitespace-only key passes the `key && value` test but names the empty variable, which the environment refuses, so the line changes nothing |
| EnvFile.ApplyLines | scripts/check-schema.ts:9-14 | applying the lines removes no variable, and every new variable is set by some line |
| EnvFile.ApplyLineEffect | scripts/verify-supabase.ts:11-12 | a line that sets a key gives it the line's value; any other line leaves that key as it was |
| EnvFile.ApplyLinesLastWins | scripts/check-schema.ts:9-14 | a variable ends with the value of the last line that sets it |
| EnvFile.ApplyLinesKeepsUnset | scripts/verify-supabase.ts:9-14 | a variable no line sets keeps its value or stays unset |
| EnvFile.ProcessEnv.LoadDotEnv | scripts/verify-supabase.ts:6-15 | nothing when the file is absent; otherwise the lines of its text applied in order |
| JsString.Trim | scripts/check-schema.ts:12 | the result is the input with a whitespace prefix and suffix removed, with no whitespace at either end, and empty exactly for an all-whitespace input |
| JsString.TrimExact | app/checkout/page.tsx:38 | when a slice has no whitespace at its ends and only whitespace around it, trimming leaves exactly that slice |
| JsString.TrimPadded | app/admin/products/add/page.tsx:38 | trimming a padded core leaves the core |
| JsString.Split | scripts/check-schema.ts:9 | at least one piece, none containing the separator, and joining them gives the input back |
| JsString.SplitJoin | scripts/verify-supabase.ts:9 | splitting joined separator-free pieces gives the pieces back |
| JsString.ContainsAt | context/auth-context.tsx:71 | `includes` holds exactly when the text occurs at some position |
| JsString.ToLower | app/orders/page.tsx:201 | same length, each character lower-cased |
| StringSort.Insert | app/admin/products/add/page.tsx:43 | inserting into a sorted list keeps it sorted and adds exactly that element |
| StringSort.Sort | app/admin/products/add/page.tsx:43 | sorted, and a permutation of the input |
| StringSort.SortedUnique | app/admin/products/add/page.tsx:43 | two sorted permutations of one list are equal, so every correct sort agrees |
| StringSort.LessTotal | app/admin/products/add/page.tsx:43 | the default string order is total |
| StringSort.LessTransitive | app/admin/products/add/page.tsx:43 | the default string order is transitive |
| Scenarios.RejectedRefreshTokenAtStartup | context/auth-context.tsx:68-79 | a rejected refresh token at startup ends signed out after exactly one sign-out call, and the guard redirects to `/login` |
| Scenarios.OtherErrorAtStartup | context/auth-context.tsx:54-79 | any other startup error ends signed out with no sign-out call, and the guard redirects to `/login` |
| Scenarios.ProfileUnreadableAtStartup | context/auth-context.tsx:36-67 | a signed-in user whose profile cannot be read has no profile, and the guard sends them to `/` |
| Scenarios.AdminThenSignedOut | context/auth-context.tsx:81-103 | an admin is let through; after signing out and the gateway's event, the guard redirects to `/login`; the gateway calls are recorded in order |
| Scenarios.StaleProfileAfterUserSwitch | context/auth-context.tsx:81-92 | a direct switch to another user whose profile query fails keeps the previous admin profile, so the guard renders for the new user |

## Left out

- The cart context is not part of this model. Checkout takes the cart's lines and its total as inputs, and clearing the cart is a returned effect.
- The clock: the order's `created_at` value is not part of the order row, and dates are shown as stored text without locale formatting.
- Floating point: prices, totals and the add page's `parseFloat` are modelled as exact `real` numbers, so rounding and `NaN` are not modelled.
- JavaScript strings are sequences of UTF-16 code units, but the model's strings are sequences of characters. For characters outside the Basic Multilingual Plane, the default `sort()` order and `slice(0, 8)` differ from the model.
- JsString.ToLower: only ASCII letters are lower-cased. In JavaScript a non-ASCII character lower-cases to non-ASCII text, or to `k` for the Kelvin sign, and none of these occurs in the four step names. So a status with a non-ASCII character matches no step, both in JavaScript and in the model, and the step index is the same.
- The whitespace set of `trim` is the ECMAScript list written out in `JsString.IsJsSpace`, for the Unicode version that list reflects.
- Asynchrony: each handler runs to completion with the gateway's answer already known.
  - Interleavings of concurrent handlers are not modelled. An example is an auth-state-change event arriving while `initializeAuth` awaits.
  - Effect re-runs are not modelled.
  - The subscription's unsubscribe cleanup is not modelled.
- Auth.AuthProvider.SignOut: the gateway's `signOut` is assumed to return; a throw from it is not modelled.
- Auth.AuthProvider.InitializeAuth: the gateway's `signOut` inside the error handler (`context/auth-context.tsx:72`) is assumed to return. If it threw, the exception would escape, loading would stay true and no subscription would be made; the contract's `!loading && subscribed` does not cover that path.
- Auth.AuthProvider.InitializeAuth: an error that `getSession` returns and one it throws take the same path in the code, and the model has a single case for both.
- Orders.ShownProductOf: a missing `product_id` is shown as `Unknown Product`. In JavaScript, `productsMap[null]` looks up the key `"null"`, so a product whose id is that text is not modelled. `productsMap` is a plain object, so an id such as `constructor` or `toString` that was not fetched resolves to an inherited object member: the page then shows that member's name (for example `Object`) and skips the catalogue fallback. The model's map has no such entries and falls back to the catalogue.
- The static product catalogue (`lib/data`) is not part of this model. It is a parameter of the order mapping.
- The add page's `handleSubmit` is modelled only as the row it builds (`AddProduct.BuildNewProduct`). The following are left out:
  - its insert answer;
  - its alerts;
  - its `loading` flag;
  - the navigation to `/admin`.
- The auto-selection of a new category through `document.getElementById` is a DOM side effect and is left out.
- `alert` and `console` output are left out. The text of an add-category alert is returned as a value.
- Presentation is left out:
  - markup and classes;
  - icons;
  - the product card;
  - the profile page's sign-out button;
  - the orders page's placeholder-image check.
- The queries that `scripts/check-schema.ts` and `scripts/verify-supabase.ts` run after loading the environment are not part of this model. Nor are the other scripts.
- For the environment loader, the file system is reduced to two parameters: whether `.env.local` exists, and its text.

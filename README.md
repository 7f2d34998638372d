# Farmer marketplace repository — a Dafny model

The marketplace keeps all of its state in the browser's key-value store under five keys:
farmers, products, the current-farmer session, product views and login history. The
`FarmerDatabase` class of `app.js` is the only code that reads or writes them. Every
operation reads a whole collection, changes it in memory and writes it back.

This project models that repository, and the small helpers around it, in Dafny:

- `Repository.FarmerDatabase` is a class with one field per collection:
  - `farmers`, `products`, `views` and `loginHistory` are sequences;
  - `session` is an `Option<Session>`.
  Its methods change only the fields they name in `modifies`. Each ensures states the new
  contents and the result.
  - The constructor is a store whose keys were never written, so every collection reads as empty.
  - `getFarmers`, `getProducts`, `getAllProducts`, `getViews` and `getLoginHistory` are
    reads of these fields.
  - `saveFarmers` and `saveProducts` are assignments to these fields.
  - `GetCurrentFarmer`, `GetFarmerProducts`, `GetFarmerByProductId` and
    `GetUniqueViewersCount` are class functions that read the fields. They delegate to the
    pure functions below, which carry the contracts.
- `Accounts` and `Catalog` hold the pure logic over the farmer and product lists:
  - first-match lookups (`find` / `findIndex`);
  - the uniqueness invariant registration keeps;
  - the delete filter and the counter updates;
  - the owner lookup and the unique-viewer count.
- `ProductImages` holds the keyword table and the picture lookup (`getProductImage`).
- `Passwords` holds `validatePassword` and the strength meter (`getPasswordStrength`).
- `Browse` holds the filter and sort of the buyer page (`loadBuyerProducts`).
- `Display` holds the dashboard totals and `maskMobile`.
- `Text`, `Seqs`, `Records` and `Outcomes` hold shared helpers:
  - ASCII lower-casing and `includes`;
  - order-preserving filter;
  - the record types;
  - `Option` and `Result`.
- `Scenarios` states, for a fresh store, what a short sequence of calls returns:
  - duplicate registration;
  - login and logout;
  - case-insensitive recovery answers;
  - view counting and owner-only delete.

Ids and timestamps come from the clock in the source. Here the caller passes them in
(`id: string`, `now: int`). Nothing assumes that ids are unique, because clock ids can
collide. The device and location details of a view or login are also a parameter
(`ClientInfo`, including the `ip` the viewer count uses).

Some facts about `app.js` that the model keeps:
- Registration reports a taken username and a taken mobile as two different errors,
  `UsernameExists` and `MobileExists` (app.js:146-150), and tests the username first.
- Farmer and product ids come from `Date.now()` and can collide (app.js:153, 212).
  No lookup assumes that ids are unique; every lookup returns the first match.
- The unique-viewer count counts distinct IP addresses among the views of the farmer's
  products (app.js:293).
- A product whose owner id matches no farmer gives no farmer, just as a missing product
  does (app.js:260-263).

## Model

| member | source | states |
|---|---|---|
| `Text.Lower` | app.js:185-186 | lower-casing keeps the length and maps each character by ASCII lower-casing |
| `Text.LowerIdempotent` | app.js:185-186 | lower-casing twice equals lower-casing once |
| `Text.IncludesAt` | app.js:17 | `includes` holds iff the needle occurs at some position of the string |
| `Seqs.Filter` | app.js:227 | a filter keeps exactly the elements satisfying the condition, each as often as in the input, never more elements than the input |
| `Seqs.FilterAppend` | app.js:232 | filtering preserves order: it distributes over concatenation |
| `Seqs.FilterAbsorb` | app.js:232 | a second filter whose condition implies the first gives what the second filter alone gives |
| `ProductImages.ImageInFirstMatch` | app.js:14-20 | the first table keyword contained in the name decides the picture; with no keyword contained the picture is the default |
| `ProductImages.PickImage` | app.js:16-19 | the loop returns the picture of the first keyword in table order that the name contains, else the default |
| `ProductImages.GetProductImage` | app.js:14-20 | the picture is that of the first table keyword contained in the lower-cased name, or the default |
| `ProductImages.ImageIn` | app.js:14-20 | the picture is always the default or the picture of some entry of the table |
| `ProductImages.ImageFor` | app.js:14-20 | the picture of a product name is the default or one of the 39 table pictures |
| `ProductImages.ImageForIgnoresCase` | app.js:15 | lower-casing a name first does not change its picture |
| `Passwords.Score` | app.js:75-80 | the strength score is between 0 and 5 |
| `Passwords.GetPasswordStrength` | app.js:74-84 | the step-by-step count reads weak at score 2 or less, medium at 3, strong at 4 or more |
| `Passwords.ValidPasswordNotWeak` | app.js:67-84 | a password that validatePassword accepts scores at least 3, so it is never weak |
| `Passwords.NonEmptyScores` | app.js:74-80 | any non-empty password scores at least 1 |
| `Passwords.MediumDoesNotImplyValid` | app.js:67-84 | a medium password ("Ab!") can still be rejected by validatePassword |
| `Passwords.ValidatePassword` | app.js:67-72 | a password is valid iff it has at least eight characters, a lower- or upper-case ASCII letter and a digit: the letter class is the union of the meter's two letter classes |
| `Accounts.FindFarmer` | app.js:194 | the result is the first farmer matching the condition, or None iff no farmer matches |
| `Accounts.AppendKeepsUnique` | app.js:144-160 | appending a farmer with a new username and a new mobile keeps both unique |
| `Accounts.SetPasswordKeepsUnique` | app.js:192-198 | changing a password keeps usernames and mobiles unique |
| `Accounts.UsernameMatchIsOnly` | app.js:194-196 | when usernames are unique, the first farmer with a username is the only one |
| `Accounts.CredentialsImplyUsername` | app.js:164 | a successful credentials match implies the username exists |
| `Accounts.SessionHidesSecrets` | app.js:166-168 | the session projection does not depend on the password or the security questions and answers |
| `Records.NewFarmer` | app.js:152-156 | the new account holds exactly the submitted form data, with the given id and creation time |
| `Records.SessionOf` | app.js:166-168 | the session keeps the account's id, name, username and mobile; the session record has no field for the password or the security questions and answers |
| `Catalog.FindProduct` | app.js:242 | the result is the first product with the id, or None iff no product has it |
| `Catalog.OwnedBy` | app.js:225-228 | a farmer's products are exactly the stored products with that owner, with their multiplicity |
| `Catalog.Remove` | app.js:230-234 | delete drops every product that has both the id and the owner, and keeps every other one with its multiplicity |
| `Catalog.Bump` | app.js:244-253 | the chosen counter (missing counts as 0) goes up by one; the other counter and every other field stay the same |
| `Catalog.Increment` | app.js:240-256 | incrementing keeps the list length and every product's id and owner |
| `Catalog.OwnerOf` | app.js:258-264 | the owner is the first farmer whose id is the owner id of the first product with the id; None iff that product or that farmer is missing |
| `Catalog.Ids` | app.js:291 | the id list has one entry per product, in order |
| `Catalog.Ips` | app.js:293 | the distinct IPs are exactly those of some view, and there are no more of them than views |
| `Catalog.UniqueViewers` | app.js:288-295 | the unique-viewer count is at most the number of views of the farmer's products |
| `Catalog.NoProductsNoViewers` | app.js:288-295 | a farmer with no products has no unique viewers |
| `Catalog.RecordViewRaisesViewersByAtMostOne` | app.js:266-295 | recording a view never lowers any farmer's unique-viewer count and raises it by at most one |
| `Catalog.RelevantAppendBound` | app.js:290-294 | appending one view to the log keeps the set of distinct IPs among the relevant views or grows it by one |
| `Catalog.AppendOwned` | app.js:209-228 | a new product appears at the end of its owner's list; other farmers' lists are unchanged |
| `Catalog.RemoveIdempotent` | app.js:230-234 | deleting twice equals deleting once |
| `Catalog.RemoveSparesOtherFarmers` | app.js:230-234 | a delete leaves every other farmer's product list, in order, as it was |
| `Catalog.RemoveDeletesExactly` | app.js:232 | after a delete a product is present iff it was present and does not have both the id and the owner |
| `Catalog.IncrementKeepsViewers` | app.js:240-256 | incrementing a counter changes no farmer's unique-viewer count |
| `Repository.FarmerDatabase.constructor` | app.js:127-138 | a store with no keys written reads as empty collections and no session |
| `Repository.FarmerDatabase.RegisterFarmer` | app.js:144-160 | fails UsernameExists if the username is taken (checked first), else MobileExists if the mobile is taken, leaving the farmers unchanged; otherwise appends exactly the new record at the end; uniqueness is preserved |
| `Repository.FarmerDatabase.LoginFarmer` | app.js:162-170 | succeeds iff some farmer has both the username and the password; then returns the first such farmer and sets the session to its projection; on failure returns InvalidCredentials and leaves the session as it was; never changes the farmers |
| `Repository.FarmerDatabase.GetCurrentFarmer` | app.js:172-175 | the session record, or None when nobody is logged in |
| `Repository.FarmerDatabase.Logout` | app.js:177-179 | afterwards getCurrentFarmer returns nothing |
| `Repository.FarmerDatabase.VerifySecurityQuestions` | app.js:181-190 | UsernameNotFound iff no farmer has the username; otherwise success iff both answers of the first such farmer match ignoring case, and then that farmer is returned; when usernames are unique it is the only farmer with the username; changes nothing |
| `Repository.FarmerDatabase.ResetPassword` | app.js:192-198 | FarmerNotFound iff the username is absent, with the list unchanged; otherwise only the password of the first farmer with the username changes; uniqueness is preserved |
| `Repository.FarmerDatabase.AddProduct` | app.js:209-223 | appends exactly one product: the given owner, id, time and form fields, both counters 0, and the picture its name calls for |
| `Repository.FarmerDatabase.GetFarmerProducts` | app.js:225-228 | every returned product has the farmer as owner, and each stored product of the farmer is returned as often as stored |
| `Repository.FarmerDatabase.DeleteProduct` | app.js:230-234 | the products become the delete filter of the old ones |
| `Repository.FarmerDatabase.IncrementViews` | app.js:240-247 | no change without a product with the id; otherwise only the first such product's views go up by one |
| `Repository.FarmerDatabase.IncrementInquiries` | app.js:249-256 | no change without a product with the id; otherwise only the first such product's inquiries go up by one |
| `Repository.FarmerDatabase.GetFarmerByProductId` | app.js:258-264 | None iff no product has the id or no farmer has its owner id; otherwise the first farmer whose id is the owner id of the first product with the id |
| `Repository.FarmerDatabase.AddProductView` | app.js:266-281 | appends exactly one view record and counts a view on the product |
| `Repository.FarmerDatabase.GetUniqueViewersCount` | app.js:288-295 | the count is at most the number of stored views, and 0 for a farmer with no products |
| `Repository.FarmerDatabase.TrackLogin` | app.js:297-310 | appends exactly one login record |
| `Browse.Insert` | app.js:645-653 | inserting adds exactly the one product and keeps a sorted list sorted |
| `Browse.SortBy` | app.js:645-653 | the sort returns a permutation of its input, ordered by the comparator's key |
| `Browse.SortByStable` | app.js:645-653 | the sort is stable: products with equal keys keep their relative order |
| `Browse.BrowseProducts` | app.js:632-653 | the buyer list holds exactly the products in the category (if any) whose name or description contains the search text ignoring case (if any), each as often as stored, sorted by the chosen order |
| `Browse.EmptySearchMatchesAll` | app.js:638-642 | an empty search text matches every product |
| `Browse.ModeOf` | app.js:645-653 | "price-low", "price-high" and "popular" select their orders, each exactly for its own value; every other value sorts newest first |
| `Browse.Compare` | app.js:645-653 | each order's comparator is the difference of the products' keys (`Key`), so it puts a first exactly when a's key is smaller: sorting by `Key` orders as the page's sort does |
| `Display.TotalsAppend` | app.js:541-542 | the view and inquiry totals add up over concatenated lists |
| `Display.TotalViews` | app.js:541 | the views total is at least each product's view count, and is 0 iff every product has no views (a missing count counts as 0) |
| `Display.TotalInquiries` | app.js:542 | the inquiries total is at least each product's inquiry count, and is 0 iff every product has no inquiries |
| `Display.IncrementRaisesOwnerTotal` | app.js:240-256 | counting a view or inquiry raises the owner's total of that counter by exactly one; the other total and other farmers' totals are unchanged |
| `Display.NewProductAddsNothing` | app.js:209-223 | a new product adds nothing to its owner's totals |
| `Display.MaskMobile` | app.js:333-336 | a number shorter than 10 is shown as is; a longer one becomes its first two characters, six X and its last two |
| `Display.MaskIdempotent` | app.js:333-336 | masking a masked number changes nothing |
| `Display.MaskShowsOnlyEnds` | app.js:333-336 | two long numbers mask alike iff they agree on their first two and last two characters |
| `Scenarios.RegisterTwice` | app.js:144-148 | registering a taken username fails with UsernameExists and leaves one account |
| `Scenarios.RegisterSameMobile` | app.js:149-151 | registering a taken mobile under a new username fails with MobileExists |
| `Scenarios.LoginLogout` | app.js:162-179 | the right password logs in and sets the projection; a wrong one fails with InvalidCredentials; after logout there is no session |
| `Scenarios.CaseFolding` | app.js:184-185 | "Blue" and "blue", and "TIGER" and "Tiger", lower-case to the same strings; "red" and "blue" do not |
| `Scenarios.RecoveryIgnoresCase` | app.js:181-190 | answers that differ from the stored ones only in letter case are accepted and return the account |
| `Scenarios.RecoveryWrongAnswer` | app.js:184-187 | a different first answer gives SecurityMismatch |
| `Scenarios.RecoveryUnknownUser` | app.js:182-183 | an unknown username gives UsernameNotFound |
| `Scenarios.ViewTwice` | app.js:209-247 | a new product viewed twice has two views |
| `Scenarios.DeleteByOwnerOnly` | app.js:209-234 | a delete by another farmer keeps the product; the owner's delete removes it |

## Left out

- The page code is not modelled. This covers page navigation, notifications, the event
  handlers, HTML templating, `alert` and `confirm`, and the recovery question labels
  (app.js:321-759). The browse filter and sort and the dashboard totals are the exceptions.
- `validateField` and its rule table are not modelled: they read and write form elements
  and use regular expression objects.
- `getDeviceInfo`, `getUserLocation` and `fetchLocationFromPIN` are left out. They call a
  user-agent parser, the screen and network services. Their results enter only as the
  `ClientInfo` parameter of `AddProductView` and `TrackLogin`.
- The clock is not modelled. Ids and timestamps are parameters, and creation times are
  integers instead of ISO strings. Sorting by `new Date(createdAt)` compares them in the
  same order.
- JSON serialisation through the store is left out. So are a stored value that fails to
  parse and other tabs writing the same keys. The collections are plain sequences.
- Prices are integers. `parseFloat` and `parseInt`, NaN prices and the inconsistent
  comparisons they cause are not modelled.
- Passwords.ValidatePassword, Passwords.Score and Display.MaskMobile: lengths and slices
  count characters (Unicode code points). `.length` and `slice` in JavaScript count UTF-16
  code units, so a character outside the Basic Multilingual Plane counts twice there.
  For example `"a1"` followed by three emoji has length 8 in the source and passes
  `validatePassword`; here it has length 5 and fails, and its strength drops from strong to
  medium. A mobile number holding such characters is masked at different positions.
- Repository.FarmerDatabase.AddProductView and Repository.FarmerDatabase.TrackLogin: each
  call is atomic here. The source reads the collection, awaits the location lookup, then
  writes the collection back (app.js:266-281, 297-310). Two overlapping calls in one tab,
  such as two quick opens of a product's details, can overwrite each other and lose a
  record; the model cannot.
- Failed writes are not modelled. Any `setItem` (app.js:141, 166, 206, 278, 309) can throw
  when the store is full; here every write succeeds.
- Text.Lower: lower-cases ASCII letters only; `toLowerCase` also folds other Unicode letters.
- Passwords.GetPasswordStrength: returns a three-valued datatype instead of the strings
  'weak', 'medium' and 'strong'.
- Display.MaskMobile: handles strings only; a missing mobile (null) is not modelled.
- The records are typed, with fixed fields. The object spread of the source would let
  extra submitted fields through, or override `id` or `farmerId`; the model does not.
- The device record's own `timestamp` field is not part of `ClientInfo`.

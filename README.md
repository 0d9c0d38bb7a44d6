# deliveryfood-app backend, modelled in Dafny

This project models the request handlers of the deliveryfood-app backend, an
Express/SQLite food-ordering service. It covers:

- checkout: pricing one product, creating the order and its single order item,
  and starting the payment;
- the Midtrans payment adapter, with its stub, QRIS, bank-transfer (virtual
  account) and Snap branches, and the payment-status poll;
- the shopping cart, kept at one row per (user, product);
- saved addresses, with at most one primary address per user;
- the password-reset OTP flow;
- registration, login, `me` and the profile update;
- the product listing filter;
- the bearer-token and role middlewares.

The SQLite database is the class `Store.Db`. It has one field per table
(`products`, `users`, `orders`, `orderItems`, `cartItems`, `addresses`,
`resets`). Each field is a `Tables.Table`: a map from rowid to record plus the
AUTOINCREMENT counter.

Each handler is a method. It takes the request's parsed body, route parameter
and decoded principal, and returns a status code and a JSON answer. Its
`ensures` give the new database state as a pure transition function of the old
one: an insert, an `UPDATE … WHERE id = ?` or a delete. The lemmas about those
functions state the invariants the handlers keep:

- one cart row per pair;
- at most one primary address;
- at most five OTP attempts;
- unique e-mails.

Selections are modelled on the table too:

- `ORDER BY id DESC` is `Tables.Select`;
- `ORDER BY id DESC LIMIT 1` is `Tables.Newest`;
- a `get` without `ORDER BY` returns the lowest matching rowid (`Tables.Oldest`).

The outside world is passed in as parameters:

- the gateway: `Payment.Gateway`, whose calls return a `Result`, `Failure`
  standing for a thrown error;
- bcrypt hashing and comparison, JWT signing and verification, SHA-256 and the
  e-mail syntax check: function parameters;
- the generated OTP and reset token: strings;
- the environment variables (`MIDTRANS_*`, `OTP_TTL_MINUTES`,
  `RESET_TOKEN_TTL_MINUTES`, `APP_ENV`): `Option` values;
- `Date.now()`: a number of milliseconds.

Where the code and the design description of the system disagree, the model
follows the code:

- With no server key, the stub payment branch also leaves `payment_token`,
  `payment_qr` and `midtrans_order_id` as they were. It does not null every
  gateway column.
- The per-bank VA fallbacks are tried whenever the first `va_numbers` entry has
  no number, not only when the list is absent.
- `listOrders` and `cancelOrder` are described and routed, but the orders
  controller does not export them. They are not modelled (see below).

## Model

| member | source | states |
|---|---|---|
| AuthMiddleware.BearerToken | backend/src/middlewares/auth.js:4-7 | a credential is accepted only when it is non-empty and free of spaces |
| AuthMiddleware.AuthRequired | backend/src/middlewares/auth.js:3-18 | passes the request on exactly when a Bearer credential is present and verifies, with the decoded principal; 401 "Unauthorized" without a credential, 401 "Invalid token" when verification fails |
| AuthMiddleware.BearerTokenShape | backend/src/middlewares/auth.js:4-7 | an accepted header is `Bearer`, one space, the token, then nothing or a space |
| AuthMiddleware.BearerTokenOf | backend/src/middlewares/auth.js:4-7 | conversely `Bearer <t>`, optionally followed by a space and more text, yields exactly `t` |
| AuthMiddleware.BearerAloneRejected | backend/src/middlewares/auth.js:5-8 | a header of `Bearer` alone is answered 401 "Unauthorized" |
| AuthMiddleware.DoubleSpaceRejected | backend/src/middlewares/auth.js:5-8 | `Bearer` followed by two spaces carries an empty credential and is answered 401 "Unauthorized" |
| AuthMiddleware.RequireRole | backend/src/middlewares/auth.js:20-26 | passes exactly a present user whose role is listed; 401 without a user, 403 "Forbidden" for another role |
| AuthMiddleware.EmptyRoleListForbids | backend/src/middlewares/auth.js:20-23 | the default empty role list lets nobody through |
| Catalog.ParamsOf | backend/src/controllers/productController.js:6-7 | the category is trimmed and the query trimmed and lower-cased, absent ones being empty |
| Catalog.FilterIsMatches | backend/src/controllers/productController.js:12-21 | the `AND` of the pushed clauses (the category test for a category other than empty or `Semua`, the name-or-store test for a non-empty query) holds exactly for the products passing both filters; with no clause every product passes |
| Catalog.ListProducts | backend/src/controllers/productController.js:23-26 | lists only rows of the products table, with their stored columns, by id descending |
| Catalog.ListedIff | backend/src/controllers/productController.js:12-26 | a product is listed if and only if it exists and matches the category (exact, unless empty or `Semua`) and the query (substring of the lower-cased name or store) |
| Catalog.NoFilterListsAll | backend/src/controllers/productController.js:12-21 | with neither filter every product is listed |
| Catalog.FiltersConjoin | backend/src/controllers/productController.js:21 | the two filters combine with AND: listed under both exactly when listed under each alone |
| Cart.ParseAdd | backend/src/controllers/cartController.js:4-7 | accepts a positive integer product id and a positive integer quantity that defaults to 1 |
| Cart.Upsert | backend/src/controllers/cartController.js:51-72 | the table stays well formed, no row is removed, and a new row appears (under the next rowid) exactly when the pair had none |
| Cart.UpsertKeepsOneRowPerPair | backend/src/controllers/cartController.js:51-72 | the upsert keeps at most one row per (user, product) |
| Cart.UpsertFrame | backend/src/controllers/cartController.js:51-72 | after the upsert the pair has a row and every row of another pair is kept unchanged |
| Cart.UpsertQty | backend/src/controllers/cartController.js:57-72 | the pair's quantity grows by exactly `qty`; every other pair's quantity is unchanged |
| Cart.AddTwice | backend/src/controllers/cartController.js:51-72 | adding a product twice leaves one row whose quantity is the sum |
| Cart.OwnedRow | backend/src/controllers/cartController.js:92-97 | finds a row exactly when the route id is a positive integer naming a row of the caller |
| Cart.AddToCart | backend/src/controllers/cartController.js:44-81 | 400 and no write on an invalid payload; otherwise the upsert and "Added to cart"; one row per pair is preserved |
| Cart.UpdateCartItem | backend/src/controllers/cartController.js:83-112 | 400 on a bad quantity or id, 404 on a row not the caller's, both without a write; otherwise that row gets exactly the new quantity |
| Cart.SetQty | backend/src/controllers/cartController.js:99-103 | the row gets exactly the new quantity, nothing else changes, and one row per pair is kept |
| Cart.SetQtyKeepsOneRowPerPair | backend/src/controllers/cartController.js:99-103 | overwriting a quantity keeps at most one row per (user, product) |
| Cart.DeleteKeepsOneRowPerPair | backend/src/controllers/cartController.js:127 | deleting a row keeps at most one row per (user, product) |
| Cart.RemoveCartItem | backend/src/controllers/cartController.js:114-135 | 400 on a bad id, 404 on a row not the caller's, both without a write; otherwise deletes only that row |
| Cart.ListCart | backend/src/controllers/cartController.js:16-34 | lists only the caller's rows that join to a product, with the product's columns, by cart id descending |
| Cart.ListCartComplete | backend/src/controllers/cartController.js:28-30 | every row of the caller whose product exists is listed |
| Addresses.ParseAdd | backend/src/controllers/addressController.js:4-8 | accepts non-empty title and detail strings (checked before trimming) and an optional boolean flag |
| Addresses.ClearPrimary | backend/src/controllers/addressController.js:47-51 | clears the flag on the user's rows only, leaving every other column and row |
| Addresses.CountZeroIff | backend/src/controllers/addressController.js:39-45 | the count is zero exactly when the user has no address |
| Addresses.FirstAddressIsPrimary | backend/src/controllers/addressController.js:44-45 | a user's first address is primary whatever was requested |
| Addresses.PrimaryDecision | backend/src/controllers/addressController.js:44-45 | a requested primary is granted; otherwise an existing address keeps the new one secondary |
| Addresses.AddedRow | backend/src/controllers/addressController.js:47-60 | the inserted row has the given title, detail and flag under the next rowid; existing rows lose their flag only on a primary add for that user |
| Addresses.AddKeepsAtMostOnePrimary | backend/src/controllers/addressController.js:47-60 | after an add the user has at most one primary address |
| Addresses.NewPrimaryIsOnlyPrimary | backend/src/controllers/addressController.js:47-60 | a new primary address is the user's only primary one |
| Addresses.NonPrimaryAddKeepsRows | backend/src/controllers/addressController.js:47-60 | a non-primary add leaves every existing row, flags included, unchanged |
| Addresses.OtherUsersUntouched | backend/src/controllers/addressController.js:48 | other users' rows are never modified |
| Addresses.AddAddress | backend/src/controllers/addressController.js:32-68 | 400 and no write on an invalid payload; otherwise clears then inserts as decided and answers 201 "Alamat ditambahkan" |
| Addresses.Rows | backend/src/controllers/addressController.js:13-22 | each listed row is the stored address under its id |
| Addresses.ListAddresses | backend/src/controllers/addressController.js:10-23 | lists stored addresses only, none of them twice |
| Addresses.ListAddressesSound | backend/src/controllers/addressController.js:13-22 | lists only the caller's addresses, as stored, primary first and then by id descending |
| Addresses.ListAddressesComplete | backend/src/controllers/addressController.js:13-22 | every address of the caller is listed |
| Orders.ParseCheckout | backend/src/controllers/orderController.js:5-16 | validates the body, with quantity 1, `qris` and `pickup` as defaults |
| Orders.UnitPrice | backend/src/controllers/orderController.js:28-31 | the promotion price exactly when it is set, positive and below the list price; otherwise the list price |
| Orders.FeeFor | backend/src/controllers/orderController.js:33 | 5000 exactly for `delivery`, else 0 |
| Orders.PriceOf | backend/src/controllers/orderController.js:28-34 | the subtotal is the unit price (promotional when it applies) times the quantity, the fee is the delivery method's fee, and the total is their sum |
| Orders.NewOrder | backend/src/controllers/orderController.js:36-60 | the new order row holds the caller, the chosen methods, the trimmed address and note and the three amounts; both statuses take the default `pending` and every gateway column is NULL |
| Orders.TotalAgainstListPrice | backend/src/controllers/orderController.js:28-34 | the total never exceeds list price × qty plus the fee; for a positive quantity it is below that exactly when the promotion applies |
| Orders.TotalMonotoneInQty | backend/src/controllers/orderController.js:32-34 | ordering more units never lowers the total |
| Orders.PromoSnapshot | backend/src/controllers/orderController.js:68 | a missing or zero promotion is stored as NULL |
| Orders.NewItem | backend/src/controllers/orderController.js:62-69 | the item links to the new order and snapshots the list price and promotion |
| Orders.ItemKeepsListPrice | backend/src/controllers/orderController.js:62-69 | the snapshot differs from the charged unit price exactly when the promotion applies |
| Orders.PaymentWriteKeepsOrder | backend/src/controllers/orderController.js:71-81 | the payment write changes only the method and gateway columns of the order |
| Orders.CreatedData | backend/src/controllers/orderController.js:83-93 | the answer carries the id, total and methods; the payment links are null for cash |
| Orders.PlaceOrder | backend/src/controllers/orderController.js:28-69 | inserts the priced order and then its item under the new order id |
| Orders.Checkout | backend/src/controllers/orderController.js:14-100 | 400 or 404 without a write; otherwise the order and item are inserted and, except for cash, the payment is planned with the new id and total; a gateway error answers 500 and leaves the order without payment data |
| Orders.ConfirmPayment | backend/src/controllers/orderController.js:102-127 | 400 on a zero or non-numeric id, 404 on an order not the caller's, both without a write; otherwise the order becomes paid |
| Orders.ConfirmTwice | backend/src/controllers/orderController.js:108-119 | a second confirmation finds the same order and leaves the table as it is |
| Payment.ConfigOf | backend/src/controllers/paymentController.js:6-12 | the gateway is enabled exactly by a non-empty server key; production only for the literal `true` |
| Payment.NormalizeBank | backend/src/controllers/paymentController.js:99 | trimmed lower-case bank code, `bca` when absent or blank |
| Payment.NormalizeBankIdempotent | backend/src/controllers/paymentController.js:99 | normalising a normalised code changes nothing |
| Payment.CallFor | backend/src/controllers/paymentController.js:23-229 | no call without a server key; a QRIS charge via gopay; an echannel charge for `mandiri` and a bank-transfer charge with the bank otherwise; Snap for any other method, cash restricted to no channels |
| Payment.FirstTruthy | backend/src/controllers/paymentController.js:153-168 | the first truthy candidate, and none only when none is truthy |
| Payment.ExtractVa | backend/src/controllers/paymentController.js:146-168 | the step-by-step extraction agrees with the reference priority order `VaOf` |
| Payment.FirstVaEntryWins | backend/src/controllers/paymentController.js:149-152 | a number in the first array entry wins, with that entry's bank |
| Payment.FallbackVa | backend/src/controllers/paymentController.js:153-168 | otherwise the first present of the permata, bca, bni, bri numbers is taken with its bank |
| Payment.EntryBankKept | backend/src/controllers/paymentController.js:153-168 | a bank code from the array entry is never replaced by a fallback's |
| Payment.NoVaNumber | backend/src/controllers/paymentController.js:146-168 | without any number the answer has no VA number and only the entry's bank |
| Payment.VaOf | backend/src/controllers/paymentController.js:146-168 | there is no VA number exactly when no candidate field is truthy; a number or bank code, when present, is non-empty |
| Wrappers.OrDefault | backend/src/controllers/paymentController.js:65 | `s \|\| d`: `s` unless it is empty, then `d`; empty only when both are |
| Payment.StoredBank | backend/src/controllers/paymentController.js:182 | the stored bank code is the answer's if any, else the requested one |
| Payment.Apply | backend/src/controllers/paymentController.js:24-239 | an `UPDATE` leaves the columns it does not name as they were: the token outside Snap, the QR code in the stub and Snap branches, the gateway order id in the stub; every other branch records its gateway order id |
| Payment.WrittenColumns | backend/src/controllers/paymentController.js:24-250 | the returned record agrees with the row on every column its branch writes |
| Payment.BankColumnsOnlyForBankTransfer | backend/src/controllers/paymentController.js:173-189 | only a bank transfer records a bank code, and it clears the URL and QR columns |
| Payment.PlanPayment | backend/src/controllers/paymentController.js:23-250 | the stub write without a key; otherwise the gateway answer turned into the branch's write, or the gateway's error |
| Payment.WriteOrder | backend/src/controllers/paymentController.js:24-239 | rewrites only the method and payment columns of that order |
| Payment.CreatePaymentForOrder | backend/src/controllers/paymentController.js:14-251 | writes the planned columns to the order and returns the branch's record; a gateway error writes nothing |
| Payment.StubUrlInjective | backend/src/controllers/paymentController.js:26 | distinct orders get distinct stub pages |
| Payment.MidtransOrderIdInjective | backend/src/controllers/paymentController.js:47 | the gateway order id determines the order id and the timestamp |
| Payment.OwnedOrder | backend/src/controllers/paymentController.js:264-271 | finds an order exactly when the id names a row of the caller |
| Payment.CreatePayment | backend/src/controllers/paymentController.js:253-290 | 400 without an id or method, 404 on an order not the caller's, both without a write; otherwise the adapter with the stored total |
| Payment.ReportedStatus | backend/src/controllers/paymentController.js:324 | the gateway status, `pending` when absent |
| Payment.StatusOf | backend/src/controllers/paymentController.js:308-326 | the stored status without a gateway id; `pending` without a key; otherwise paid exactly for settlement, capture or success |
| Payment.MissingStatusIsPending | backend/src/controllers/paymentController.js:324-326 | an absent status reads as pending, which is not paid |
| Payment.MarkPaid | backend/src/controllers/paymentController.js:328-334 | sets both statuses of that order to paid and nothing else |
| Payment.MarkPaidIdempotent | backend/src/controllers/paymentController.js:328-334 | marking paid twice is marking paid once |
| Payment.StatusWriteOnce | backend/src/controllers/paymentController.js:328-334 | after the write no later poll writes, and an answer from the stored status never writes |
| Payment.GetPaymentStatus | backend/src/controllers/paymentController.js:292-343 | 400 or 404 without a write; otherwise reports the status and writes paid only when newly paid |
| Payment.PollStatus | backend/src/controllers/paymentController.js:308-339 | a found order answers its stored status without a gateway id, `pending` while the gateway is disabled, the gateway's error message as a 500, or the gateway's status; the order is written paid only when it newly becomes paid |
| PasswordResets.TtlMinutes | backend/src/controllers/authController.js:48 | the configured lifetime, or the default (2 for OTPs, 15 for reset tokens) |
| PasswordResets.NewReset | backend/src/controllers/authController.js:52-59 | a new request starts unverified, with no attempts and no token |
| PasswordResets.WrongGuess | backend/src/controllers/authController.js:112 | adds exactly one attempt to that request and changes nothing else |
| PasswordResets.MarkVerified | backend/src/controllers/authController.js:123-133 | verifies that request and stores the token hash and expiry |
| PasswordResets.ClearToken | backend/src/controllers/authController.js:186-190 | clears the token hash and expiry of that request |
| PasswordResets.SetPasswordHash | backend/src/controllers/authController.js:183 | replaces that user's password hash only |
| PasswordResets.NewResetKeepsBound | backend/src/controllers/authController.js:52-59 | a new request keeps every attempt count within 0..5 |
| PasswordResets.WrongGuessKeepsBound | backend/src/controllers/authController.js:106-114 | an attempt is counted only below the limit, so counts never exceed 5 |
| PasswordResets.TokenWritesKeepBound | backend/src/controllers/authController.js:123-190 | verifying and clearing tokens keep the bound |
| PasswordResets.VerifiedIsNotPickedAgain | backend/src/controllers/authController.js:87-96 | a verified request is never again the one the OTP check considers |
| PasswordResets.TokenIsSingleUse | backend/src/controllers/authController.js:162-190 | after a reset the used token matches nothing new and not the used request, so a token held by one request is then rejected |
| PasswordResets.ForgotPassword | backend/src/controllers/authController.js:30-73 | 400 on an invalid payload; the neutral message and no write for an unknown e-mail; otherwise a new request with the OTP's hash, expiring after the TTL, answered with "OTP dikirim." and the OTP except in production |
| PasswordResets.ParseVerify | backend/src/controllers/authController.js:19-22 | an e-mail and an OTP of 4 to 8 characters |
| PasswordResets.VerifyOtp | backend/src/controllers/authController.js:75-146 | works on the newest unverified request of the user; expiry before the 429 limit; a wrong OTP counts one attempt; a right one verifies, stores the token hash and answers "OTP valid." with the token; the attempt bound is kept |
| PasswordResets.ParseReset | backend/src/controllers/authController.js:24-28 | a token of at least 20 characters and two passwords of at least 8 |
| PasswordResets.ResetPassword | backend/src/controllers/authController.js:148-199 | 400 without a write on an invalid payload, a mismatch, an unknown token or an expired one; otherwise the new hash is stored and the token cleared |
| PasswordResets.CompleteReset | backend/src/controllers/authController.js:183-190 | the two writes of a successful reset, keeping the attempt bound |
| Accounts.UserByEmailUnique | backend/src/controllers/auth2Controller.js:25 | with unique e-mails the lookup finds exactly the row holding the address |
| Accounts.PublicOf | backend/src/controllers/auth2Controller.js:76 | the public fields of a user, never the password hash |
| Accounts.ParseRegister | backend/src/controllers/auth2Controller.js:6-10 | a name of 2 to 50 characters, an e-mail and a password of at least 8 |
| Accounts.NewCustomer | backend/src/controllers/auth2Controller.js:30-34 | the inserted row has role `customer` and no phone or avatar |
| Accounts.RegisterKeepsUniqueEmails | backend/src/controllers/auth2Controller.js:25-34 | inserting a fresh e-mail keeps e-mails unique |
| Accounts.Register | backend/src/controllers/auth2Controller.js:17-50 | 400 or 409 without a write; otherwise inserts the customer, whose new id, e-mail and role the answer and the token carry |
| Accounts.ParseLogin | backend/src/controllers/auth2Controller.js:12-15 | an e-mail and a non-empty password |
| Accounts.Login | backend/src/controllers/auth2Controller.js:52-84 | 400 on an invalid payload; 200 exactly when the user exists and the password matches, with the public fields and a token; every 401 has the same message |
| Accounts.LoginFailuresAlike | backend/src/controllers/auth2Controller.js:66-69 | an unknown e-mail and a wrong password get identical answers |
| Accounts.RegisterThenLogin | backend/src/controllers/auth2Controller.js:17-77 | logging in after registering succeeds as the new user |
| Accounts.Me | backend/src/controllers/auth2Controller.js:86-101 | 404 exactly when the caller's row is missing; otherwise the public fields |
| Profile.ParseUpdate | backend/src/controllers/userController.js:4-8 | a name of at least 2 characters and optional string phone and avatar |
| Profile.SetProfile | backend/src/controllers/userController.js:20-24 | the caller's row gets the three fields; nothing else changes |
| Profile.SetProfileKeepsIdentity | backend/src/controllers/userController.js:20-24 | e-mails, roles and password hashes are kept, and so is e-mail uniqueness |
| Profile.UpdatedRow | backend/src/controllers/userController.js:26-31 | the answered row has the new values and the stored e-mail and role |
| Profile.StoreProfile | backend/src/controllers/userController.js:20-31 | the write and the re-read |
| Profile.UpdateMe | backend/src/controllers/userController.js:10-38 | 400 or 404 without a write; otherwise stores the trimmed name, phone and avatar (absent ones as empty) and answers the row |
| Profile.AnswerIsStoredRow | backend/src/controllers/userController.js:26-31 | the answer is what a fresh read of the row gives |
| Request.PositiveInt | backend/src/controllers/cartController.js:5 | accepts exactly a positive integer |
| Request.EnumOr | backend/src/controllers/orderController.js:8-9 | an absent field takes the default; a present one must be one of the allowed strings |
| Request.RowId | backend/src/controllers/cartController.js:87-97 | a route number names a rowid exactly when it is a positive integer |
| Request.JsonToNumber | backend/src/controllers/paymentController.js:254 | `Number(x \|\| 0)` of a body field: absent, null, false, 0 and "" give 0; a string is read as `Number` reads it; an array as its one element; an object is NaN |
| Request.ArrayNumber | backend/src/controllers/paymentController.js:254 | `Number` of an array: empty gives 0, two or more elements NaN, one element that element's number |
| Request.WrappedIdReadsAsId | backend/src/controllers/paymentController.js:254 | a body id sent as `[n]` or `["n"]` reads as the id `n` |
| Request.ToNumber | backend/src/controllers/cartController.js:87 | a blank string reads as 0, and a negative number needs a leading minus sign |
| Request.RouteIdOfRenderedId | backend/src/controllers/cartController.js:87 | a route parameter spelling a positive rowid selects exactly that rowid |
| Strings.Trim | backend/src/controllers/userController.js:23 | the result has no surrounding white space and is the infix of the input left after dropping exactly the white space before and after it |
| Strings.TrimIdempotent | backend/src/controllers/userController.js:23 | trimming twice is trimming once |
| Strings.ToLower | backend/src/controllers/productController.js:7 | lower-cases character by character, keeping the length |
| Strings.ContainsIff | backend/src/controllers/productController.js:17-20 | the substring test holds exactly when the query occurs at some position |
| Strings.Split | backend/src/middlewares/auth.js:5 | no part contains the separator |
| Strings.JoinSplit | backend/src/middlewares/auth.js:5 | joining the parts of a split gives back the string |
| Strings.NatToStringRoundTrip | backend/src/controllers/paymentController.js:26 | reading back a rendered id yields the id |
| Tables.Select | backend/src/controllers/cartController.js:31 | only matching rows, by id descending |
| Tables.SelectComplete | backend/src/controllers/cartController.js:31 | every matching row is selected |
| Tables.NewestSpec | backend/src/controllers/authController.js:87-96 | `LIMIT 1` after `ORDER BY id DESC` finds the highest matching rowid, none only when nothing matches |
| Tables.OldestSpec | backend/src/controllers/auth2Controller.js:25 | a `get` without order finds the lowest matching rowid, none only when nothing matches |

## Left out

- SQLite itself (opening, closing, the promise wrappers) is replaced by the in-memory table state. The startup DDL and seed script is not part of this model, so the `status`/`payment_status` default `pending` and the AUTOINCREMENT rowids are stated in the model directly.
- Express wiring, routes, the server, the rate limiters and the mailer are left out: they are framework configuration, logging or e-mail I/O.
- `listOrders` and `cancelOrder` are left out because the orders controller does not export them, though the routes import them. The promo and review controllers are left out too: they are single unfiltered reads outside the core.
- `logout` is left out: it only answers a constant message.
- The 500 answers for thrown database errors are left out. Only gateway errors are modelled, as `Failure`.
- The Midtrans client, bcrypt, JWT, SHA-256, the OTP/token generator and zod's e-mail check are parameters. Their behaviour (such as hash injectivity) is not modelled beyond what each lemma assumes.
- Request.ToNumber: only decimal spellings (optionally signed, with a fraction, surrounded by white space) are modelled. Hexadecimal, exponent and `Infinity` forms read as NaN.
- Strings.ToLower: models ASCII case folding only. SQL `LOWER` and `toLowerCase` on other letters are not modelled, and `LIKE` wildcards inside the query are treated as ordinary characters.
- String lengths in the zod checks count Dafny characters, not UTF-16 code units.
- Prices and totals are unbounded integers. JavaScript number precision and fractional prices are not modelled.
- Time is an integer of milliseconds. ISO timestamp formatting, `created_at`/`updated_at` columns and the `created_at` column in the `me` and profile answers are left out. A non-numeric TTL setting is not modelled (it is taken as a number or as absent).
- Payment.CreatePayment: takes `payment_method` and `bank_code` as strings already converted with `.toString()`.
- Accounts.Register: e-mail uniqueness is an invariant the handler preserves from its own lookup. The database's UNIQUE constraint and the race between two registrations are not modelled.
- Concurrency is not modelled: each handler runs alone, so the check-then-write race of the cart upsert does not arise.
- Console logging is left out.

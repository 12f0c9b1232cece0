# Sanekey storefront: a verified model of its core rules

Sanekey is a clothing and gift-card storefront. It has a React front end
and a Spring back end. This project models the parts of both that carry
rules, and proves what those rules guarantee.

Front end:

- the shopping-cart reducer and its totals (`Cart`, in `cart.dfy`);
- the review list of the product page: star histogram, rating filter, the
  four orders and the write-review form (`ReviewList`);
- the product listing page: the mock catalogue and its search, category
  filter and sort (`Catalog`);
- the frame arithmetic of the 360-degree viewer (`Viewer360`).

Back end:

- the review service: one review per product and user, owner-only edits,
  owner-or-admin deletes, the helpful counter and the rating distribution
  (`Reviews`);
- the payment service: the PENDING / COMPLETED / FAILED / CANCELLED /
  REFUNDED status machine, Stripe and PayPal creation and confirmation,
  minor units and the null-to-zero sums (`Payments`);
- the payment endpoints: the amount guard and the owner-or-admin rule
  (`PaymentApi`);
- the user registry: unique emails, password change and credential checks
  (`Users`);
- the authentication endpoints: sign-in, sign-up ordering, sign-out and
  Bearer-token validation (`AuthApi`).

`Common` and `Seqs` hold shared helpers:

- `Option` and `Result`;
- prefix and substring tests, and ASCII lower-casing;
- an order-keeping filter;
- a stable insertion sort under a total preorder, which stands for
  `Array.prototype.sort`.

How the model is built:

- **Back-end services are classes.** Each holds its repository as a map
  from id to record, plus the next id to hand out. A ghost `Valid()`
  predicate states the table invariant: one review per pair, unique emails,
  and a "TXN_" transaction id on every payment.
- **Methods are proved against pure functions.** Each method is tied to
  pure transition functions such as `Cancelled`, `StripeConfirmed` and
  `WithPassword`. The lemmas about those functions state what the service
  promises.
- **Front-end state is a class too.** The cart provider, the review form,
  the product page and the viewer each become a class whose fields are the
  React state. The reducers and comparators stay functions.
- **Outside inputs are parameters.** These cover the provider SDK results
  (a Stripe intent status, a PayPal order status or their failures), the
  authentication manager's verdict, the JWT utilities, the password
  encoder, the clock, and the transaction-id stamp and suffix.
- **Amounts.**
  - Back-end amounts are `real`, which is exact, as `BigDecimal` is.
  - Front-end prices are whole paise.
  - Java's 32-bit `int` and 64-bit `long` wrap-around is written out where
    the source can reach it.
  - JavaScript's truncating `%` is written out too.

## Model

| member | source | states |
|---|---|---|
| Cart.Reduce | src/context/CartContext.tsx:21-52 | no action except ADD_ITEM and LOAD_CART lengthens the cart |
| Cart.AddItemExisting | src/context/CartContext.tsx:24-31 | adding a product already in the cart keeps length and id order, raises that row's quantity by exactly the added amount and leaves every other row as it was |
| Cart.AddItemNew | src/context/CartContext.tsx:32 | adding a new product appends exactly one row `{id, item, quantity}` at the end |
| Cart.AddItemTwice | src/context/CartContext.tsx:24-32 | adding q1 then q2 of one product equals adding q1 + q2 once |
| Cart.AddItemSplits | src/context/CartContext.tsx:24-31 | when row k is the only row of a product, adding it bumps row k and keeps the rows before and after it |
| Cart.ReducePreservesDistinctIds | src/context/CartContext.tsx:23-46 | ADD_ITEM, REMOVE_ITEM, UPDATE_QUANTITY and CLEAR_CART keep product ids distinct |
| Cart.WithoutKeepsDistinct | src/context/CartContext.tsx:34-35 | removing a product keeps ids distinct |
| Cart.LoadCartInstallsVerbatim | src/context/CartContext.tsx:47-48 | LOAD_CART installs a list with a repeated row as it is, so distinct ids are not guaranteed after it |
| Cart.RemoveItemDropsId | src/context/CartContext.tsx:34-35 | REMOVE_ITEM leaves no row with that id, keeps exactly the other rows and changes nothing when the id is absent |
| Cart.RemoveItemKeepsOrder | src/context/CartContext.tsx:34-35 | removing the only row of a product leaves the rows before and after it, in order |
| Cart.UpdateNonPositiveIsRemove | src/context/CartContext.tsx:37-39 | UPDATE_QUANTITY with 0 or less gives exactly the REMOVE_ITEM result |
| Cart.UpdatePositiveReplaces | src/context/CartContext.tsx:40-44 | a positive UPDATE_QUANTITY replaces the matching row's quantity, keeps length, ids and other rows, and is a no-op for an absent id |
| Cart.TotalOf | src/context/CartContext.tsx:91 | the provider's `total` is never negative when no row has a negative price or quantity |
| Cart.ItemCountOf | src/context/CartContext.tsx:92 | the provider's `itemCount` is at least the number of rows when every row holds a unit, and never negative when no quantity is |
| Cart.TotalsAppend | src/context/CartContext.tsx:91-92 | `total` and `itemCount` of a concatenation are the sums of the parts |
| Cart.TotalsOfOne | src/context/CartContext.tsx:91-92 | a one-row cart totals price times quantity and counts its quantity |
| Cart.TotalsOfSplit | src/context/CartContext.tsx:91-92 | the totals of a cart split around one row are the parts' totals plus that row's |
| Cart.TotalsAfterBump | src/context/CartContext.tsx:91-92 | raising one row's quantity by q raises `total` by price times q and `itemCount` by q |
| Cart.ClearCartEmpties | src/context/CartContext.tsx:45-46 | after CLEAR_CART the cart is empty and both totals are 0 |
| Cart.TotalsAfterAddNew | src/context/CartContext.tsx:32 | adding a new product raises `total` by price times quantity and `itemCount` by quantity |
| Cart.TotalsAfterAddExisting | src/context/CartContext.tsx:24-31 | adding a product already present raises `total` by its row's price times quantity and `itemCount` by quantity |
| Cart.CheckoutScenario | src/context/CartContext.tsx:21-52 | add(P1,2), add(P2,1), add(P1,3) gives the rows [P1 x5, P2 x1], 6 items and total 5·p1 + p2; setting P2 to 0 leaves [P1 x5] |
| Cart.CartProvider.constructor | src/context/CartContext.tsx:55 | the provider starts with an empty cart |
| Cart.CartProvider.Dispatch | src/context/CartContext.tsx:55 | the new rows are the reducer applied to the old rows and the action |
| Cart.CartProvider.AddItem | src/context/CartContext.tsx:75-77 | `addItem` dispatches ADD_ITEM; the quantity defaults to 1 |
| Cart.CartProvider.RemoveItem | src/context/CartContext.tsx:79-81 | `removeItem` dispatches REMOVE_ITEM |
| Cart.CartProvider.UpdateQuantity | src/context/CartContext.tsx:83-85 | `updateQuantity` dispatches UPDATE_QUANTITY |
| Cart.CartProvider.ClearCart | src/context/CartContext.tsx:87-89 | `clearCart` empties the cart |
| Reviews.AddInt32 | backend/src/main/java/com/sanekey/service/ProductReviewService.java:110 | Java `int` addition: the result is a 32-bit value congruent to the true sum modulo 2^32 |
| Reviews.NewReview | backend/src/main/java/com/sanekey/service/ProductReviewService.java:32-34 | a new review carries the user, product, rating, title, comment and images, is verified, has no helpful votes and no update time |
| Reviews.Edited | backend/src/main/java/com/sanekey/service/ProductReviewService.java:51-55 | an edit replaces rating, title, comment and images, stamps the update time and keeps user, product, verification and helpful count |
| Reviews.Helpful | backend/src/main/java/com/sanekey/service/ProductReviewService.java:110 | the helpful count goes up by exactly one below the `int` maximum and wraps to the minimum at it; nothing else changes |
| Reviews.HasReviewBy | backend/src/main/java/com/sanekey/service/ProductReviewService.java:28 | `existsByProductIdAndUser` holds exactly when the user is among the product's reviewers |
| Reviews.MayDelete | backend/src/main/java/com/sanekey/service/ProductReviewService.java:68 | an ADMIN may delete any review; anyone else exactly their own |
| Reviews.AddKeepsOnePerPair | backend/src/main/java/com/sanekey/service/ProductReviewService.java:28-36 | saving a review for a pair that has none keeps one review per (product, user), and the pair then has one |
| Reviews.ReplaceKeepsOnePerPair | backend/src/main/java/com/sanekey/service/ProductReviewService.java:51-57 | saving a review over one with the same product and user keeps one review per pair |
| Reviews.RemoveFreesPair | backend/src/main/java/com/sanekey/service/ProductReviewService.java:72 | deleting a review keeps one per pair and frees its pair for a new review |
| Reviews.RatingDistribution | backend/src/main/java/com/sanekey/service/ProductReviewService.java:129-138 | the distribution has keys 1..5 plus every rating in the rows, and each key maps to the count of its last row, 0 when no row names it |
| Reviews.CountForRow | backend/src/main/java/com/sanekey/service/ProductReviewService.java:134-138 | with one row per rating, the distribution entry of a row's rating is that row's count |
| Reviews.CountForAbsent | backend/src/main/java/com/sanekey/service/ProductReviewService.java:131-133 | a rating no row names keeps 0 |
| Reviews.DistributionCountsReviews | backend/src/main/java/com/sanekey/repository/ProductReviewRepository.java:55-56 | for rows grouped from a product's reviews, every entry is the number of reviews with that rating |
| Reviews.ReviewService.constructor | backend/src/main/java/com/sanekey/service/ProductReviewService.java:18-21 | the service starts with an empty review table |
| Reviews.ReviewService.CanUserReviewProduct | backend/src/main/java/com/sanekey/service/ProductReviewService.java:168-170 | a user may review a product exactly when they are not among its reviewers |
| Reviews.ReviewService.CreateReview | backend/src/main/java/com/sanekey/service/ProductReviewService.java:26-37 | creation fails with "already reviewed" exactly when `canUserReviewProduct` is false, changing nothing; otherwise it stores the new verified review under a fresh id; either way the user can no longer review the product |
| Reviews.ReviewService.UpdateReview | backend/src/main/java/com/sanekey/service/ProductReviewService.java:42-58 | unknown id gives "not found", another user's review gives "only your own", both changing nothing; the owner's edit replaces only that review with its edited form |
| Reviews.ReviewService.DeleteReview | backend/src/main/java/com/sanekey/service/ProductReviewService.java:63-73 | unknown id gives "not found"; only the owner or an ADMIN may delete, and a refused delete changes nothing |
| Reviews.ReviewService.MarkReviewAsHelpful | backend/src/main/java/com/sanekey/service/ProductReviewService.java:106-112 | unknown id gives "not found"; otherwise only that review changes, to its helpful-plus-one form |
| Payments.TransactionId | backend/src/main/java/com/sanekey/service/PaymentService.java:290-292 | a transaction id starts with "TXN_" followed by the stamp, "_" and the suffix |
| Payments.TruncateTowardZero | backend/src/main/java/com/sanekey/service/PaymentService.java:91 | `longValue` drops the fraction toward zero |
| Payments.WrapLong | backend/src/main/java/com/sanekey/service/PaymentService.java:91 | the result is a 64-bit value congruent to the input, and equal to it when it fits |
| Payments.StripeMinorUnits | backend/src/main/java/com/sanekey/service/PaymentService.java:91 | the minor units sent to Stripe are a 64-bit `long`, and an amount under one paisa either way is sent as 0 |
| Payments.StripeMinorUnitsExact | backend/src/main/java/com/sanekey/service/PaymentService.java:91 | an amount with whole paise is sent to Stripe as exactly that many minor units |
| Payments.StripeMinorUnitsTruncates | backend/src/main/java/com/sanekey/service/PaymentService.java:91 | for a positive amount the minor units are amount x 100 rounded down: never more, and less by under one |
| Payments.StripeMinorUnitsDropsFraction | backend/src/main/java/com/sanekey/service/PaymentService.java:91 | 0.999 is sent as 99 minor units, not 100 |
| Payments.NewPayment | backend/src/main/java/com/sanekey/service/PaymentService.java:78-82 | a new payment is PENDING, not completed, and carries the user, amount, method and transaction id |
| Payments.Cancelled | backend/src/main/java/com/sanekey/service/PaymentService.java:259-269 | cancelling succeeds exactly from PENDING and gives CANCELLED with nothing else changed; otherwise it fails naming the status |
| Payments.Refunded | backend/src/main/java/com/sanekey/service/PaymentService.java:274-285 | refunding succeeds exactly from COMPLETED and gives REFUNDED with nothing else changed; otherwise it fails naming the status |
| Payments.StripeConfirmed | backend/src/main/java/com/sanekey/service/PaymentService.java:160-166 | "succeeded" gives COMPLETED with the completion time, "payment_failed" gives FAILED, and any other intent status changes nothing |
| Payments.PayPalConfirmed | backend/src/main/java/com/sanekey/service/PaymentService.java:183-188 | "COMPLETED" gives COMPLETED with the completion time; every other order status gives FAILED |
| Payments.RunKeepsStampedAndOrigin | backend/src/main/java/com/sanekey/service/PaymentService.java:155-285 | no sequence of cancels, refunds and confirmations changes the owner, amount, method, description, transaction id or provider ids of a payment, and a completed or refunded payment always keeps a completion time |
| Payments.RefundNeedsCompletion | backend/src/main/java/com/sanekey/service/PaymentService.java:274-285 | a payment that ends REFUNDED was refunded at some step where it was COMPLETED |
| Payments.CancelAndRefundGuards | backend/src/main/java/com/sanekey/service/PaymentService.java:259-285 | a cancel changes a payment exactly when it is PENDING, and a refund exactly when it is COMPLETED |
| Payments.ConfirmAfterCancel | backend/src/main/java/com/sanekey/service/PaymentService.java:155-169 | a cancelled payment whose Stripe intent later reports "succeeded" becomes COMPLETED, because confirmation does not check the status |
| Payments.OrZero | backend/src/main/java/com/sanekey/service/PaymentService.java:235-254 | a null sum becomes zero; any other sum is kept |
| Payments.OrZeroIsSum | backend/src/main/java/com/sanekey/repository/PaymentRepository.java:71-72 | an SQL SUM with null for no rows, then null-to-zero, is the plain sum; it is non-negative for non-negative amounts |
| Payments.CompletedAmounts | backend/src/main/java/com/sanekey/repository/PaymentRepository.java:71-72 | the user's COMPLETED amounts are at most as many as the payments, none negative when no amount is, and none at all when the user has no COMPLETED payment |
| Payments.TotalAmountByUser | backend/src/main/java/com/sanekey/service/PaymentService.java:235-238 | the user total is never negative when no amount is, and is 0, not null, for a user without a COMPLETED payment |
| Payments.TotalAmountByUserAppend | backend/src/main/java/com/sanekey/repository/PaymentRepository.java:71-72 | one more payment adds its amount to the user's total only if it is that user's and COMPLETED |
| Payments.PaymentService.constructor | backend/src/main/java/com/sanekey/service/PaymentService.java:27-34 | the service starts with an empty payment table |
| Payments.PaymentService.FindByReference | backend/src/main/java/com/sanekey/repository/PaymentRepository.java:36-41 | the Optional lookup by provider reference fails as "not found" exactly when no payment carries it and as non-unique exactly when two do; a found payment is the only carrier |
| Payments.PaymentService.CreatePayment | backend/src/main/java/com/sanekey/service/PaymentService.java:78-82 | a new PENDING payment with the "TXN_" id is stored under a fresh id and nothing else changes |
| Payments.PaymentService.CreateStripePayment | backend/src/main/java/com/sanekey/service/PaymentService.java:87-104 | the intent asks for amount x 100 truncated; a Stripe failure is reported while the PENDING row stays; success records the intent id on the new PENDING payment |
| Payments.PaymentService.CreatePayPalPayment | backend/src/main/java/com/sanekey/service/PaymentService.java:109-150 | a PayPal failure is reported with the "Failed to create PayPal payment: " prefix and nothing is stored; success stores a PENDING payment carrying the order id |
| Payments.PaymentService.ConfirmStripePayment | backend/src/main/java/com/sanekey/service/PaymentService.java:155-169 | the intent is fetched before the lookup; a fetch failure, a missing payment and a non-unique one change nothing; otherwise only the found payment changes, as the Stripe mapping says |
| Payments.PaymentService.ConfirmPayPalPayment | backend/src/main/java/com/sanekey/service/PaymentService.java:174-195 | every failure, "Payment not found" included, is reported with the "Failed to confirm PayPal payment: " prefix and changes nothing; otherwise only the found payment changes, as the PayPal mapping says |
| Payments.PaymentService.CancelPayment | backend/src/main/java/com/sanekey/service/PaymentService.java:259-269 | unknown id gives "not found"; otherwise the result is the cancel transition, stored only on success |
| Payments.PaymentService.RefundPayment | backend/src/main/java/com/sanekey/service/PaymentService.java:274-285 | unknown id gives "not found"; otherwise the result is the refund transition, stored only on success |
| PaymentApi.ValidAmount | backend/src/main/java/com/sanekey/controller/PaymentController.java:37-41 | the create endpoints refuse a missing, zero or negative amount and accept every positive one (the same test at lines 77-81) |
| PaymentApi.MayAccess | backend/src/main/java/com/sanekey/controller/PaymentController.java:188-189 | an ADMIN may read or cancel any payment; anyone else exactly their own (the same test at lines 217-218) |
| PaymentApi.PaymentById | backend/src/main/java/com/sanekey/controller/PaymentController.java:180-202 | 400 "Payment not found" exactly for an unknown id, 403 "Access denied" exactly for a caller who neither owns the payment nor is ADMIN, and the payment otherwise |
| PaymentApi.CreateStripePayment | backend/src/main/java/com/sanekey/controller/PaymentController.java:33-66 | a missing or non-positive amount is refused with "Invalid payment amount" before the service runs and changes nothing; otherwise exactly one PENDING row is added under a fresh id; a Stripe failure gives "Stripe error: " and that row stays without an intent id; success stores the intent id on it and returns that stored row |
| PaymentApi.CreatePayPalPayment | backend/src/main/java/com/sanekey/controller/PaymentController.java:73-102 | the same amount guard; a PayPal failure is reported with the service's message prefixed again, and nothing is stored; success adds exactly one PENDING row carrying the order id under a fresh id and returns that stored row |
| PaymentApi.PayPalCreateFailureMessage | backend/src/main/java/com/sanekey/controller/PaymentController.java:97-100 | the client sees "Failed to create PayPal payment: " twice before the provider's message |
| PaymentApi.CancelPayment | backend/src/main/java/com/sanekey/controller/PaymentController.java:209-237 | unknown id gives "Failed to cancel payment: Payment not found"; a caller who is neither owner nor ADMIN gets 403 and nothing changes; otherwise the cancel transition decides the reply and the new table |
| Users.Registered | backend/src/main/java/com/sanekey/service/UserService.java:44-51 | a registered user has the email, encoded password and name, role USER, is active and has no avatar |
| Users.WithProfile | backend/src/main/java/com/sanekey/service/UserService.java:78-87 | a profile update changes only the name, avatar and update time |
| Users.WithPassword | backend/src/main/java/com/sanekey/service/UserService.java:100-102 | a password change replaces only the stored password and the update time |
| Users.WithActive | backend/src/main/java/com/sanekey/service/UserService.java:108-127 | activation and deactivation set only the flag and the update time |
| Users.WithActiveIdempotent | backend/src/main/java/com/sanekey/service/UserService.java:108-127 | deactivating twice is deactivating once, and likewise for activating |
| Users.RegisterKeepsUniqueEmails | backend/src/main/java/com/sanekey/service/UserService.java:40-51 | adding a user with a new email keeps emails unique |
| Users.SameEmailKeepsUnique | backend/src/main/java/com/sanekey/service/UserService.java:78-127 | saving a user back under the same email keeps emails unique |
| Users.RegisteredValidates | backend/src/main/java/com/sanekey/service/UserService.java:39-52 | with a sound encoder, a freshly registered user's password validates |
| Users.ChangedPasswordValidates | backend/src/main/java/com/sanekey/service/UserService.java:92-103 | with a sound encoder, an active user's new password validates after a change |
| Users.DeactivatedIsRefused | backend/src/main/java/com/sanekey/service/UserService.java:108-115 | a deactivated user's credentials never validate |
| Users.UserService.constructor | backend/src/main/java/com/sanekey/service/UserService.java:21-25 | the service starts with an empty user table and the given encoder |
| Users.UserService.ExistsByEmail | backend/src/main/java/com/sanekey/service/UserService.java:132-134 | `existsByEmail` holds exactly when the email is among the stored users' emails |
| Users.UserService.FindByEmail | backend/src/main/java/com/sanekey/service/UserService.java:57-59 | nothing is found exactly when no user has the email; a found user is the stored user with it |
| Users.UserService.LoadUserByUsername | backend/src/main/java/com/sanekey/service/UserService.java:31-34 | an unknown email fails with "User not found with email: "; otherwise it returns the stored user with that email |
| Users.UserService.ValidateCredentials | backend/src/main/java/com/sanekey/service/UserService.java:168-175 | true exactly when a user with the email exists, is active and the password matches; false for an unknown email |
| Users.UserService.RegisterUser | backend/src/main/java/com/sanekey/service/UserService.java:39-52 | a taken email fails and changes nothing; otherwise the registered user is stored under a fresh id; afterwards the email exists |
| Users.UserService.UpdateUserProfile | backend/src/main/java/com/sanekey/service/UserService.java:78-87 | unknown id fails and changes nothing; otherwise only that user changes, to its updated profile |
| Users.UserService.ChangePassword | backend/src/main/java/com/sanekey/service/UserService.java:92-103 | unknown id fails; a wrong old password fails with "Old password is incorrect" and changes nothing; otherwise the stored password becomes the new one encoded |
| Users.UserService.SetActive | backend/src/main/java/com/sanekey/service/UserService.java:108-127 | unknown id fails and changes nothing; otherwise only that user's flag and update time change |
| Users.UserService.DeactivateUser | backend/src/main/java/com/sanekey/service/UserService.java:108-115 | unknown id fails; otherwise the user becomes inactive |
| Users.UserService.ActivateUser | backend/src/main/java/com/sanekey/service/UserService.java:120-127 | unknown id fails; otherwise the user becomes active |
| AuthApi.SecurityContext.constructor | backend/src/main/java/com/sanekey/controller/AuthController.java:48 | the security context starts with no authentication |
| AuthApi.BearerToken | backend/src/main/java/com/sanekey/controller/AuthController.java:169-170 | there is a token exactly when the (required) header starts with "Bearer ", and the header is "Bearer " followed by it |
| AuthApi.BearerTokenRoundTrip | backend/src/main/java/com/sanekey/controller/AuthController.java:169-170 | "Bearer " + t gives back t |
| AuthApi.Utf16Length | backend/src/main/java/com/sanekey/controller/AuthController.java:92 | Java's `String.length()`: one unit per character of the Basic Multilingual Plane, two per character above it, so between |s| and 2·|s| |
| AuthApi.ThreeEmojiPassLengthRule | backend/src/main/java/com/sanekey/controller/AuthController.java:92 | a password of three emoji is three characters long yet passes the six-unit minimum |
| AuthApi.SignInUser | backend/src/main/java/com/sanekey/controller/AuthController.java:37-74 | every failure gives the same "Invalid email or password" and leaves the context; success stores the principal and returns a token for the email |
| AuthApi.SignUpUser | backend/src/main/java/com/sanekey/controller/AuthController.java:80-136 | a taken email is refused before the password length is checked; a password under 6 UTF-16 units is refused with nothing registered; otherwise the user is registered, and a failed sign-in afterwards reports "Registration failed: " while the user stays |
| AuthApi.SignOutUser | backend/src/main/java/com/sanekey/controller/AuthController.java:142-161 | the context is cleared and sign-out succeeds |
| AuthApi.ValidateToken | backend/src/main/java/com/sanekey/controller/AuthController.java:167-204 | valid exactly when the header is a Bearer header whose token passes the check and names a known user; a bad header or token gives "Invalid or expired token"; an unknown user gives "Token validation failed" |
| ReviewList.CountRating | src/components/ProductReviews.tsx:53-59 | the count of reviews with a rating is at most the number of reviews |
| ReviewList.CountsCoverAll | src/components/ProductReviews.tsx:53-59 | with ratings in 1..5, the five counts add up to the number of reviews |
| ReviewList.GetRatingDistribution | src/components/ProductReviews.tsx:53-59 | five entries, entry k counting the (5 - k)-star reviews, summing to the number of reviews |
| ReviewList.Before | src/components/ProductReviews.tsx:63-76 | each of the four comparators is total and transitive, so the sort is well defined |
| ReviewList.KeepRating | src/components/ProductReviews.tsx:62 | with no filter every review is kept; with a filter exactly the reviews of that rating are |
| ReviewList.FilteredAndSorted | src/components/ProductReviews.tsx:61-76 | the shown reviews are exactly those with the chosen rating (all without a filter), as a permutation of the filtered list, no more than the reviews; newest and oldest order by date, helpful and rating are non-increasing; reviews the order ranks level keep their list order, as the stable `Array.prototype.sort` does |
| ReviewList.NoFilterKeepsAll | src/components/ProductReviews.tsx:62 | without a rating filter every review is shown, each as often as it occurs |
| ReviewList.ReviewForm.constructor | src/components/ProductReviews.tsx:22-30 | the form starts hidden, at five stars, with empty title, comment and images |
| ReviewList.ReviewForm.HandleSubmitReview | src/components/ProductReviews.tsx:78-95 | without a user or handler nothing changes; otherwise exactly one verified review from the form is handed on, the form resets to five stars with empty fields and hides, and submit is disabled again |
| Catalog.CategoryList | src/pages/Products.tsx:6-31 | every item kept under a category key has that category |
| Catalog.AllItems | src/pages/Products.tsx:42 | the flattened catalogue has 14 items |
| Catalog.Selected | src/pages/Products.tsx:50-60 | an item survives exactly when it is in the list, its lower-cased name contains the lower-cased term, and the category is 'all' or its own |
| Catalog.EmptySearchKeepsAll | src/pages/Products.tsx:51-55 | the empty term matches every item, so skipping the search for it changes nothing |
| Catalog.FilterOneCategory | src/pages/Products.tsx:58-60 | filtering a one-category list keeps all of it or none |
| Catalog.FilterFlattened | src/pages/Products.tsx:42-60 | filtering the five flattened lists by a category gives that category's list |
| Catalog.CategoryFilterGivesList | src/pages/Products.tsx:42-60 | choosing a category shows exactly the mock list under that key, in catalogue order |
| Catalog.Comparator | src/pages/Products.tsx:63-74 | each of the three orders is total and transitive, given that name collation is |
| Catalog.ShowsMeans | src/pages/Products.tsx:47-77 | the shown list holds exactly the matching items, only of the chosen category, never more than `items`, with prices non-decreasing, non-increasing or names in collation order, and items the order ranks level in catalogue order |
| Catalog.ShowsUnique | src/pages/Products.tsx:47-77 | those properties fix the shown list completely: two lists that both have them are equal |
| Catalog.FilterAndSort | src/pages/Products.tsx:47-77 | the effect's result is a sorted, stable permutation of the selection, hence the one list the controls determine |
| Catalog.ProductsPage.constructor | src/pages/Products.tsx:33-45 | the mounted page holds the whole catalogue, no search, every category, name order, and its shown list follows these controls |
| Catalog.ProductsPage.Refresh | src/pages/Products.tsx:47-77 | re-running the filter effect makes the shown list the one the controls determine and changes no control |
| Catalog.ProductsPage.SetSearchTerm | src/pages/Products.tsx:47-77 | after typing, the shown list is exactly the stable sorted selection for the new term and the catalogue is not reordered |
| Catalog.ProductsPage.SetSelectedCategory | src/pages/Products.tsx:47-77 | after picking a category, the shown list is exactly the stable sorted selection for it and the catalogue is not reordered |
| Catalog.ProductsPage.SetSortBy | src/pages/Products.tsx:47-77 | after picking an order, the shown list is exactly the stable sorted selection for it and the catalogue is not reordered |
| Viewer360.JsRem | src/components/Product360Viewer.tsx:52-54 | JavaScript's remainder lies in 0..n for a non-negative dividend and in -n..0 for a negative one |
| Viewer360.Steps | src/components/Product360Viewer.tsx:46-48 | the steps are the whole number of 3-pixel units in the drag distance |
| Viewer360.NextIndex | src/components/Product360Viewer.tsx:22 | a tick moves to the next frame, from the last back to the first |
| Viewer360.PreviousIndex | src/components/Product360Viewer.tsx:54 | the frame before stays in 0..n |
| Viewer360.Ticks | src/components/Product360Viewer.tsx:22 | k ticks stay in 0..n |
| Viewer360.TicksBack | src/components/Product360Viewer.tsx:54 | k steps back stay in 0..n |
| Viewer360.TicksAdvance | src/components/Product360Viewer.tsx:22 | k ticks from prev land on (prev + k) mod n |
| Viewer360.TicksBackRetreat | src/components/Product360Viewer.tsx:54 | k steps back from prev land on (prev - k) mod n |
| Viewer360.FullTurn | src/components/Product360Viewer.tsx:22 | n ticks either way return to the starting frame |
| Viewer360.ForwardIndex | src/components/Product360Viewer.tsx:52 | a right drag of k steps lands where k ticks do |
| Viewer360.BackwardIndexAsWritten | src/components/Product360Viewer.tsx:54 | the written left-drag formula stays above -n |
| Viewer360.BackwardIndex | src/components/Product360Viewer.tsx:54 | the corrected left drag of k steps lands where k steps back do |
| Viewer360.BackwardAsWrittenInRange | src/components/Product360Viewer.tsx:54 | the written formula names a frame exactly when steps <= prev + n or steps - prev is a multiple of n, and then it agrees with the corrected one |
| Viewer360.BackwardAsWrittenGoesNegative | src/components/Product360Viewer.tsx:54 | from frame 0 of 4, five steps left give -1 as written and 3 as intended |
| Viewer360.ForwardThenBackward | src/components/Product360Viewer.tsx:51-55 | a right drag and a left drag of the same length return to the start |
| Viewer360.Viewer.constructor | src/components/Product360Viewer.tsx:10-14 | the viewer starts at frame 0, not rotating, not dragging, not fullscreen |
| Viewer360.Viewer.Tick | src/components/Product360Viewer.tsx:19-23 | a tick moves to the next frame, wrapping, and changes nothing else |
| Viewer360.Viewer.MouseDown | src/components/Product360Viewer.tsx:37-41 | pressing starts a drag at the pointer and stops auto-rotation |
| Viewer360.Viewer.MouseMove | src/components/Product360Viewer.tsx:43-58 | nothing changes unless dragging and at least one step was covered; then the frame turns that many steps right or left and the pointer position is recorded |
| Viewer360.Viewer.MouseUp | src/components/Product360Viewer.tsx:60-62 | releasing ends the drag and keeps the frame |
| Viewer360.Viewer.ToggleAutoRotate | src/components/Product360Viewer.tsx:64-66 | auto-rotation flips and nothing else changes |
| Viewer360.Viewer.ToggleFullscreen | src/components/Product360Viewer.tsx:73-75 | fullscreen flips and nothing else changes |
| Viewer360.Viewer.ResetRotation | src/components/Product360Viewer.tsx:68-71 | reset goes to frame 0 with auto-rotation off |
| Viewer360.Viewer.SelectFrame | src/components/Product360Viewer.tsx:155 | a thumbnail click shows that frame |

## Left out

- Local storage: the cart's load on mount and save on change, and where the auth token is kept. These are I/O. `LOAD_CART` itself is modelled.
- Floating point: the tax and grand total of the cart page, discount percentages, average ratings, the histogram percentages and number formatting.
- Stripe and PayPal SDK calls, the clock and the random transaction-id suffix. Their results are parameters: intent or order id or failure message, provider status, `now`, stamp and suffix.
- The BCrypt salt. The encoder is a pair of functions, `encode` and `matches`, passed in. `Users.Sound` states the one property the proofs use: an encoded password matches itself.
- The authentication manager and JWT signing. Their verdicts are parameters of the endpoints.
- Repository queries. They are modelled over the tables: the existence checks, Optional lookups, the GROUP BY rating counts and the COMPLETED-only SUM. Strings compare by exact equality, while the database's collation may not (see `Users.EmailIn`).
- `Users.EmailIn`: emails match case-sensitively, by exact equality, so "A@x.com" and "a@x.com" are two emails here. Under a case-insensitive database collation they are one, and registering the second would be refused; the model accepts it.
- Concurrency. Requests are modelled one at a time. The check-then-save of `createReview` and `registerUser` is not atomic in the source, so `Reviews.OnePerPair` and `Users.UniqueEmails` hold only when requests run one after another; two concurrent requests, or the database's own unique constraints, are not modelled.
- `AuthApi.ValidateToken`: the `Authorization` header is required by Spring, which refuses a request without it before the endpoint runs (the global exception handler gives 500). That path is outside the endpoint and not modelled.
- The `ProductReview`, `Payment` and `User` entity classes are not part of this model. Their constructors and defaults are taken as follows: a new payment is PENDING, a new review has 0 helpful votes and no update time, and timestamps are integers.
- The service and controller operations not named above: listings, searches, history, statistics, `getMonthlyRevenue` and `getDailyRevenue` beyond their null-to-zero rule, average rating and total review count, and the confirm and "me" endpoints of the controllers.
- The exact message a Spring Optional lookup raises when a provider reference matches several payments. It is modelled as `NonUniqueResult`.
- React rendering, effect timing and batching. Each handler runs to completion and the filter effects run at once.
- `ReviewList.GetRatingDistribution`: requires every rating to be in 1..5. A rating outside that range makes the JavaScript array grow or gain a non-index property, and that is not modelled.
- `ReviewList.FilteredAndSorted`: dates are integers; date strings that do not parse are not modelled.
- `Catalog.FilterAndSort`: `localeCompare` is an abstract total preorder `collate`; lower-casing is ASCII only.
- `Catalog.Item`: the image URL is not modelled, and the mock prices are whole paise.
- `Catalog.SortKey`: the comparator's default branch, which returns 0, is unreachable from the select and not modelled.
- `Viewer360.Viewer.MouseMove`: pointer positions are whole pixels. It uses the corrected backward step; the written one is `Viewer360.BackwardIndexAsWritten`.
- `Viewer360.Viewer.Tick`: the interval's start and stop through `setInterval` and `clearInterval` are not modelled. A tick happens only while auto-rotation is on.

## Findings

| source | as written | input that shows it | evidently intended | confidence | as-written member | corrected member |
|---|---|---|---|---|---|---|
| src/components/Product360Viewer.tsx:54 | a left drag sets the frame to `(prev - steps + images.length) % images.length`. JavaScript's `%` keeps the sign of the dividend, so the index is negative whenever steps > prev + n and steps - prev is not a multiple of n | 4 images, frame 0, one mouse move of 15 pixels or more to the left (5 steps): the index becomes -1 and `images[-1]` is undefined | the frame `steps` back from prev, wrapping: `(prev - steps) mod n` in 0..n | not executed | Viewer360.BackwardIndexAsWritten, Viewer360.BackwardAsWrittenInRange, Viewer360.BackwardAsWrittenGoesNegative | Viewer360.BackwardIndex, Viewer360.TicksBackRetreat, Viewer360.ForwardThenBackward |

# ECArtisans backend core in Dafny

A model of the logic inside the ECArtisans shop backend's Express handlers, with proofs about it. The backend is a
Node/Mongoose marketplace. The model covers five pieces:

- **The payment gateway codec** (`service/payment.js`). It builds the ten-field `key=value&…` trade string, four of
  whose values go through `encodeURIComponent`. It also builds the `HashKey=…&<cipher>&HashIV=…` signature pre-image,
  upper-cases the digest, cleans decrypted text and assembles the redirect bundle.
- **The payment handlers** (`controllers/paymentController.js`). These are ad-hoc and order-bound initiation, plus the
  gateway notification. The notification overwrites the order whose MerchantOrderNo it names.
- **The shopping cart** (`controllers/user/cartControllers.js`). It covers add (merge or append), quantity update,
  delete, clear, the selected-items summary, and coupon validation. The summary groups lines by seller, intersects
  payment methods and takes the highest fare.
- **Order creation and reviews** (`controllers/user/orderControllers.js`). An order is built from selected cart lines
  of one seller, with an optional coupon discount clamped at zero. The selected lines then leave the cart. A review
  is accepted at most once per order line.
- **The seller catalogue rules** (`controllers/seller/shopControllers.js`). These are pagination, the cyclic
  assignment of images to formats, the coupon date check, the coupon list filter, and the product tags that coupon
  creation and update keep with `$addToSet` and `$pull`.

The database is replaced by in-memory values:
- A collection the handlers change is a class field: `OrderStore.orders`, `Cart.items`, `Shop.products` and
  `Shop.coupons`.
- A collection they only read is a parameter: the product catalogue is a `map` from id to product.
- Each store holds its records in insertion order, and `findOne` returns the first match.
- The absence of a user's cart is a `null` cart.

The following become parameters:
- AES-256-CBC, SHA-256, `JSON.parse` and the text of non-integral Numbers are function values in `Primitives`.
- Clock readings (`now`, `clock1`, `clock2`) and new document ids (`newId`) are plain arguments.

Money is modelled this way:
- Cart and line prices are integers.
- Order totals are exact reals, so the percentage discount has no rounding.

Files:
- `common.dfy`: `Option`, `Result` and the HTTP status codes.
- `percent_encoding.dfy`: `encodeURIComponent` and its decoder.
- `query_string.dfy`: split and join.
- `payment_codec.dfy`: `service/payment.js`.
- `models.dfy`: the records, `FindFirst`, `Filter` and `LinesTotal`.
- `payment_controller.dfy`, `cart.dfy`, `order.dfy`, `shop.dfy`: the four controllers.

Where the source and the intended behaviour differ, the model follows the source, with these exceptions:
- **Undefined `next` and `appError(…, next)`.** Several handlers return an error this way, and `next` is not in scope
  (the handlers take only `(req, res)`). These are `addToCart`, `updateCart`, `deleteCart`, `deleteCartAll`,
  `createOrder`, `createCoupon` and `updateCoupon`. At run time the `ReferenceError` is caught and answered with 500,
  but the model gives the status the handler names: 400 or 404.
- **`validateCoupon` and `User`.** It uses `User`, which is never imported, so as written every request that gets past
  the id-list check answers 500. The model continues with the user's discount list as a parameter.
- **Two Findings.** The corrected versions are used, and in both cases the as-written behaviour is modelled and
  exhibited beside them (see "## Findings").

## Model

| member | source | states |
|---|---|---|
| PercentEncoding.Utf8 | service/payment.js:21-27 | A character takes one to four UTF-8 bytes, and a single byte exactly when it is ASCII |
| PercentEncoding.EncodeURIComponent | service/payment.js:21-27 | The output holds only unreserved characters and `%`, so never `&` or `=`; text made only of unreserved characters is left unchanged |
| PercentEncoding.UnescapeEncode | service/payment.js:21-27 | Undoing the `%XX` escapes of an encoded string gives exactly its UTF-8 bytes |
| PercentEncoding.Utf8RoundTrip | service/payment.js:21-27 | UTF-8 decoding recovers every string from its encoding |
| PercentEncoding.DecodeEncode | service/payment.js:21-27 | `decodeURIComponent(encodeURIComponent(s))` is `s` for every string |
| QueryString.SplitJoin | service/payment.js:16-27 | Splitting on `&` gives back the joined fields when no field contains `&` |
| QueryString.KeyValueOf | service/payment.js:16-27 | Splitting `key=value` at its first `=` gives back the key and value when the key has no `=` |
| PaymentCodec.NatTextValue | controllers/paymentController.js:25 | The decimal text of a clock reading denotes that reading |
| PaymentCodec.IntegralNumberText | service/payment.js:19-20 | An integral amount is written without `&` or `=` |
| PaymentCodec.DataChainFields | service/payment.js:16-27 | The trade string splits into exactly ten `key=value` fields, in the order MerchantID, TimeStamp, Version, RespondType, MerchantOrderNo, Amt, NotifyURL, ReturnURL, ItemDesc, Email. This holds when the raw values hold no `&`. |
| PaymentCodec.DataChainRoundTrip | service/payment.js:16-27 | A receiver recovers every field: MerchantID, Version and both URLs from the configuration, RespondType as the literal `JSON`, and the order's TimeStamp, MerchantOrderNo, Amt, ItemDesc and Email, the encoded ones decoded |
| PaymentCodec.DataChainIgnoresOrderConfig | service/payment.js:17-27 | Two orders with the same TimeStamp, MerchantOrderNo, Amt, ItemDesc and Email give the same trade string, whatever the other fields are |
| PaymentCodec.ShaPreimage | service/payment.js:41 | The pre-image is `HashKey=` + key + `&`, then the ciphertext, then `&HashIV=` + iv, and nothing more |
| PaymentCodec.ShaPreimageInjective | service/payment.js:41 | Different ciphertexts have different pre-images |
| PaymentCodec.ToUpper | service/payment.js:42 | The result has the same length and no lower-case letter; lower-case letters are shifted and every other character is kept |
| PaymentCodec.ToUpperIdempotent | service/payment.js:42 | Upper-casing twice equals upper-casing once |
| PaymentCodec.ShaEncrypt | service/payment.js:39-43 | TradeSha contains no lower-case letter |
| PaymentCodec.ShaEncryptUpperStable | service/payment.js:42 | Upper-casing TradeSha again leaves it unchanged |
| PaymentCodec.Clean | service/payment.js:54 | No character up to U+0020 remains, the result is no longer than the input, text without such characters is unchanged, and text made only of such characters becomes empty; with CleanAppend this fixes the result as the input with those characters deleted |
| PaymentCodec.CleanAppend | service/payment.js:54 | Cleaning works piece by piece, so kept characters keep their order |
| PaymentCodec.CleanIdempotent | service/payment.js:54 | Cleaning twice equals cleaning once |
| PaymentCodec.InitiatePayment | service/payment.js:60-73 | TradeSha signs exactly the returned TradeInfo; TradeInfo is the encrypted trade string; every other bundle field is the configuration's |
| PaymentController.InitiatePayment | controllers/paymentController.js:12-33 | The answer is 400 exactly when email, Amt or ItemDesc is falsy (the number 0 and the empty text, but not the text `0`); otherwise a bundle whose TradeInfo is the encryption of the request's own payment data (its Amt, ItemDesc and email, the two clock readings), whose TradeSha signs that TradeInfo, and whose merchant, version and gateway are the configuration's |
| PaymentController.TextAmountVerbatim | controllers/paymentController.js:16-26 | A text Amt `0` is accepted, and a text Amt `0100` is written into the trade string as it came |
| PaymentController.AdHocTradeString | controllers/paymentController.js:20-31 | The trade string carries RespondType `JSON`, the decimal clock reading as MerchantOrderNo, and the request's Amt (a number rendered by `String`, text as it came), ItemDesc and Email |
| PaymentController.InitiateOrderPayment | controllers/paymentController.js:42-64 | The answer is 404 exactly when no order has the id; otherwise a bundle whose TradeInfo is the encryption of the payment data built from the first order with that id (Amt totalPrice + fare, the user's email), whose TradeSha signs that TradeInfo, and whose merchant, version and gateway are the configuration's |
| PaymentController.OrderPaymentIgnoresClientAmount | controllers/paymentController.js:43-57 | Requests that differ only in the amount the client sends get the same answer |
| PaymentController.OrderTradeString | controllers/paymentController.js:51-62 | The trade string carries Amt = totalPrice + fare, ItemDesc `ECArtisans訂單` + order id, and the signed-in user's email |
| PaymentController.OrderAmountExample | controllers/paymentController.js:57 | An order of 500 with fare 30 is charged `530` |
| PaymentController.NotifiedMatch | controllers/paymentController.js:92-100 | The first order with the MerchantOrderNo gets the TradeNo, the PayTime and state 1; every other order is unchanged |
| PaymentController.NotifiedNoMatch | controllers/paymentController.js:92-104 | When no order has the MerchantOrderNo, the table is unchanged |
| PaymentController.NotifiedIdempotent | controllers/paymentController.js:92-100 | Applying the same notification twice gives the table that applying it once gives |
| PaymentController.NotifiedOverwritesPaidOrder | controllers/paymentController.js:92-100 | There is no compare-and-set: a paid order is overwritten with a later notification's TradeNo |
| PaymentController.HandlePaymentResult | controllers/paymentController.js:78-106 | Undecryptable input gives 500 and no change; otherwise the acknowledgement carries the decrypted Result whether or not an order matches, the table becomes the notified one, and the 404 error is raised exactly when no order matched |
| Models.LinesTotalUpdate | controllers/user/cartControllers.js:252-259 | Replacing one line changes the total by exactly the change of that line's price |
| Models.LinesTotalRemove | controllers/user/cartControllers.js:298-304 | Removing one line lowers the total by exactly that line's price |
| CartController.FindFormat | controllers/user/cartControllers.js:17-20 | It finds a format of the product with the requested id, or reports that none has it |
| CartController.AddMerges | controllers/user/cartControllers.js:33-43 | Adding to an existing line raises its quantity by the amount and prices it at new quantity × format price; no line is added and the others are unchanged |
| CartController.AddAppends | controllers/user/cartControllers.js:44-51 | With no matching line, exactly one line is appended, with price quantity × format price; existing lines are unchanged |
| CartController.AddedTotal | controllers/user/cartControllers.js:39-57 | The new total is the old one with one line's price replaced, or with the new line's price added |
| CartController.AddKeepsDistinct | controllers/user/cartControllers.js:33-51 | Adding never creates a second line for a (product, format) pair that already has one |
| CartController.UpdatedSpec | controllers/user/cartControllers.js:241-253 | The update fails exactly when no line matches; otherwise it sets the first matching line's quantity, prices it at quantity × the line's stored format price, and leaves the other lines alone |
| CartController.UpdatedIdempotent | controllers/user/cartControllers.js:241-253 | Setting the same quantity twice gives the cart that setting it once gives |
| CartController.UpdateKeepsDistinct | controllers/user/cartControllers.js:241-253 | Updating keeps lines distinct |
| CartController.RemovedSpec | controllers/user/cartControllers.js:287-298 | The delete fails exactly when `findIndex` gives -1; otherwise it removes exactly the first matching line and keeps the others in their order |
| CartController.RemovedTotal | controllers/user/cartControllers.js:298-304 | A delete takes exactly the removed line out of the contents and its price out of the total |
| CartController.RemovedTwice | controllers/user/cartControllers.js:287-298 | In a cart of distinct lines, deleting the same line again finds nothing |
| CartController.RemoveKeepsDistinct | controllers/user/cartControllers.js:287-298 | Deleting keeps lines distinct |
| CartController.SumPrices | controllers/user/cartControllers.js:54-57 | The `reduce` loop computes the sum of the line prices |
| CartController.Cart.constructor | controllers/user/cartControllers.js:27-30 | A new cart belongs to the user, has no lines and a total of 0 |
| CartController.Cart.Recount | controllers/user/cartControllers.js:54-57 | Recounting keeps the lines and makes the total their price sum |
| CartController.Cart.Add | controllers/user/cartControllers.js:33-57 | The lines become the merged-or-appended lines, and the total is their price sum |
| CartController.Cart.Update | controllers/user/cartControllers.js:241-259 | It reports whether a line matched; if one did, the lines are updated and the total recounted; otherwise nothing changes |
| CartController.Cart.Remove | controllers/user/cartControllers.js:287-304 | It reports whether a line matched; if one did, that line is removed and the total recounted; otherwise nothing changes |
| CartController.Cart.Prune | controllers/user/orderControllers.js:124-136 | Only the lines the selection does not name remain, in their order, and the total is their price sum |
| CartController.Cart.Clear | controllers/user/cartControllers.js:331-332 | No lines remain and the total is 0 |
| CartController.AddToCart | controllers/user/cartControllers.js:6-63 | A missing product or format gives 404 and changes nothing; otherwise the user's cart, or a new one when there is none, holds the added lines with a consistent total |
| CartController.UpdateCart | controllers/user/cartControllers.js:228-261 | A missing cart or line gives 404 and changes nothing; otherwise the updated lines, with a consistent total |
| CartController.DeleteCart | controllers/user/cartControllers.js:275-306 | A missing cart or line gives 404 and changes nothing; otherwise the lines without the deleted one, with a consistent total |
| CartController.DeleteCartAll | controllers/user/cartControllers.js:320-334 | A missing cart gives 404; otherwise no lines and a total of 0 |
| CartController.Selected | controllers/user/cartControllers.js:162-168 | Every chosen line is a cart line that the selection names |
| CartController.SelectionSplitsCart | controllers/user/orderControllers.js:124-136 | Each line is either chosen or left in the cart, never both; the counts add up to the cart's, and so do the totals |
| CartController.Populate | controllers/user/cartControllers.js:149-156 | Populating keeps one entry per line, in order, and entry k pairs line k with the catalogue's document for its product |
| CartController.GroupedSpec | controllers/user/cartControllers.js:178-191 | The groups have distinct sellers; each group holds exactly its seller's lines, in cart order; every line's seller has a group |
| CartController.LineInOneGroup | controllers/user/cartControllers.js:178-191 | Each selected line lands in exactly one group, the one of its seller |
| CartController.GroupBySeller | controllers/user/cartControllers.js:178-188 | The `reduce` loop builds the seller groups |
| CartController.CommonPayMembers | controllers/user/cartControllers.js:194-199 | A method is kept exactly when it is one of 1, 2, 3 and every chosen product accepts it, in the default order |
| CartController.CommonPayMethods | controllers/user/cartControllers.js:194-199 | The loop that filters `[1, 2, 3]` once per line computes the common payment methods |
| CartController.MaxOf | controllers/user/cartControllers.js:202-204 | The fare is at least every chosen line's fare and equals one of them |
| CartController.SelectedTotalDoubleCounts | controllers/user/cartControllers.js:207-210 | As written, one line of 2 at 10 is priced 20 in the cart but 40 in the summary |
| CartController.ChooseSelectedCart | controllers/user/cartControllers.js:139-219 | A missing `selectedItems` gives 400 and a missing cart 404. With a non-empty selection, a cart line whose product is gone gives 500. A selection naming no cart line gives 400; otherwise the seller groups, the common methods, the highest fare and the chosen lines' price sum |
| CartController.FoundProductsMembers | controllers/user/cartControllers.js:374-380 | `find({_id: {$in}})` yields exactly the existing products among the ids, and nothing exactly when none exists |
| CartController.CouponLookup | controllers/user/cartControllers.js:353-400 | The lookup succeeds exactly when the id list is non-empty, the user's list is known, at least one product is found, and the first coupon with the id in the user's list is enabled with `now` inside [startDate, endDate]; it then returns that coupon and the found products. A missing or empty id list gives 400, an unknown user 404, and every failure is 400 or 404 |
| CartController.ValidateCoupon | controllers/user/cartControllers.js:353-415 | An accepted coupon is the one the lookup returns, so at least one product was found and it is the first coupon with the id, and it has productType 0, 1 or 2; a lookup refusal is passed on with its own status. For type 1 every product is owned by the coupon's seller, and for type 2 every product is listed in productChoose. |
| CartController.ValidateCouponByType | controllers/user/cartControllers.js:402-415 | After the lookup, a site-wide coupon is always accepted, a seller coupon exactly when the seller owns every product, a product coupon exactly when it lists every product, and any other type never |
| CartController.SellerCouponRejectedAsWritten | controllers/user/cartControllers.js:405-410 | As written, a seller coupon is never accepted |
| CartController.SellerCouponExample | controllers/user/cartControllers.js:405-410 | A seller's coupon on that seller's product is accepted when `sellerOwned` is compared, and refused with 500 as written |
| OrderController.GatherStops | controllers/user/orderControllers.js:44-57 | Once the selection loop has refused a prefix of the selections, it refuses the whole selection |
| OrderController.GatherSeller | controllers/user/orderControllers.js:44-59 | The selection loop succeeds exactly when every selection names a cart line and all those lines share one seller, which it then holds |
| OrderController.GatherItems | controllers/user/orderControllers.js:61-68 | A successful selection loop holds one order line per selection, copied from the matched cart line in selection order, and their price sum |
| OrderController.CollectOrderItems | controllers/user/orderControllers.js:40-69 | The loop succeeds exactly when every selection names a cart line and all of them belong to one seller, and fails with 400 otherwise. On success the seller is that seller, the order lines copy the matched cart lines in selection order, and the total is their price sum. |
| OrderController.ApplyCoupon | controllers/user/orderControllers.js:93-97 | The discount step computes the discounted, clamped total |
| OrderController.DiscountedTotalSpec | controllers/user/orderControllers.js:93-97 | For a non-negative total the result lies between 0 and the total. A non-percentage coupon takes nothing, and a percentage coupon of at most 100 takes exactly percentage × total / 100. |
| OrderController.DiscountedTotalNeverNegative | controllers/user/orderControllers.js:97 | The final total is never negative |
| OrderController.CouponWithoutProductsRefused | controllers/user/orderControllers.js:84-90 | A coupon that lists no product is refused, whatever its productType |
| OrderController.CreateOrder | controllers/user/orderControllers.js:12-136 | Any failure is 400 and changes nothing. The order is created exactly when the request is complete, the cart is non-empty, the selections match lines of one seller, and any named coupon is usable. Then it holds that seller, the copied lines, state 0 and the total after the optional discount; it is appended to the store; the cart keeps exactly the unselected lines with a consistent total. |
| OrderController.ReviewedChangesOneLine | controllers/user/orderControllers.js:284-311 | A successful review sets the review of one line of one order and changes nothing else |
| OrderController.ReviewedOnce | controllers/user/orderControllers.js:297-300 | Reviewing a reviewed line again fails with 400 |
| OrderController.CreateReview | controllers/user/orderControllers.js:284-311 | A missing order gives 404, so does a product the order lacks, and an already reviewed line gives 400; otherwise the store is the reviewed one |
| ShopController.PageParam | controllers/seller/shopControllers.js:26-27 | The page and size are never 0: a NaN or 0 parameter gives the default, and any other value is kept |
| ShopController.TotalPagesLeast | controllers/seller/shopControllers.js:35-39 | totalPages is the least number of pages of `qty` that hold `total`, and 0 for an empty list |
| ShopController.PaginationWindow | controllers/seller/shopControllers.js:35-54 | hasPrev holds exactly when the skip is positive and hasNext exactly when page × qty < total; pages 1 to totalPages start inside the list and later ones at or past its end |
| ShopController.PaginationExample | controllers/seller/shopControllers.js:35-54 | 25 documents at 12 per page make 3 pages; page 1 has no previous page and page 3 no next one |
| ShopController.Window | controllers/seller/shopControllers.js:41-43 | `skip().limit()` returns at most `limit` of the matching documents |
| ShopController.ListingSpec | controllers/seller/shopControllers.js:35-54 | A page below 1 is refused. Otherwise the page is the run of at most qty matching documents starting at (page − 1) × qty, full when enough remain, with the pagination of the counted total. |
| ShopController.ProductPagesIgnoreCategory | controllers/seller/shopControllers.js:30-39 | The pagination block is the same whatever the category, because it counts all the seller's products |
| ShopController.GetProductsMembers | controllers/seller/shopControllers.js:30-43 | Every listed product is the seller's and in the category |
| ShopController.WithImagesCyclic | controllers/seller/shopControllers.js:110-113 | The list keeps its length. Format i gets image i mod the number of images and keeps its other fields, the images repeat with that period, and with at least as many images as formats format i gets image i. |
| ShopController.TagOf | controllers/seller/shopControllers.js:390 | The tag is 0 exactly for a type-0 coupon and 1 otherwise |
| ShopController.Scope | controllers/seller/shopControllers.js:380-387 | The tag update selects only existing products |
| ShopController.AddTagAllSpec | controllers/seller/shopControllers.js:389-392 | A product in scope afterwards carries exactly its old tags and the new one, the new one exactly once if it had no duplicates, and its other fields are unchanged; products outside the scope are unchanged |
| ShopController.AddTagAllIdempotent | controllers/seller/shopControllers.js:391 | Adding the same tag to the same scope twice equals adding it once |
| ShopController.PullTagAllSpec | controllers/seller/shopControllers.js:448-451 | No product in scope keeps the tag, each keeps its other tags, and products outside the scope are unchanged |
| ShopController.RetaggedSpec | controllers/seller/shopControllers.js:439-483 | After an update, a product's tags are exactly its old ones, minus the old tag when it is in the old scope, plus the new tag when it is in the new scope; so products in the new scope carry the new tag, products in the old scope lose the old tag when the two tags differ, products in neither are unchanged, only tags change, and no duplicates arise |
| ShopController.RetaggedDropsSharedTag | controllers/seller/shopControllers.js:439-451 | The pull ignores other coupons: narrowing one coupon strips the tag from a product another coupon still covers |
| ShopController.CouponListQuery | controllers/seller/shopControllers.js:279-293 | A coupon matches the built query exactly when it is the seller's and meets the `disabled` and `invalid` conditions. `disabled=true/false` selects isEnabled false/true, and `invalid=true/false` selects endDate < now / ≥ now; other values add nothing. |
| ShopController.GetCoupons | controllers/seller/shopControllers.js:273-311 | The handler answers with the listing of the coupons the parameters select, paginated by the count of all the seller's coupons |
| ShopController.CouponListSpec | controllers/seller/shopControllers.js:281-299 | Every listed coupon meets the conditions, and the page count does not depend on them |
| ShopController.Shop.CreateCoupon | controllers/seller/shopControllers.js:347-392 | A start date after the end date gives 400 and no change (equal dates pass). Otherwise the coupon is appended, and its tag is added to the seller's products (type 1), to the listed products (type 2), or to none. |
| ShopController.Shop.UpdateCoupon | controllers/seller/shopControllers.js:410-483 | The date check gives 400, and a coupon the seller does not own gives 404, in both cases with no change. Otherwise the coupon is overwritten, the old tag is pulled from the old scope, and then the new tag is added to the new scope. |

## Left out

- AES-256-CBC, SHA-256 and `JSON.parse` are opaque function values. `String(x)` for a non-integral Number is also one. No property of the ciphers is assumed.
- `Date.now()`, `new Date()` and Mongo ObjectIds are parameters. The two clock readings in each initiation are independent.
- The Mongoose plumbing is not modelled: `populate`, `save`, `upsert`, schema validation and casting. Stores are in-memory sequences and maps.
- The order schema (models/order.js) has no MerchantOrderNo, TradeNo or PayTime fields, and `initiateOrderPayment` never stores a MerchantOrderNo. The record carries these fields, but nothing here claims that persistence links initiation to notification.
- Routing, authentication, CORS, the EJS return page and the response-formatting code under routes are left out.
- The read-only handlers are not part of this model: `getCart`, `getProductsAll`, `getProduct`, `getCouponsAll`, `getCoupon` and the order queries. So are `deleteProduct` and `deleteCoupon`, and the `populate` of listed documents.
- The model does not parse query parameters. `page` and `qty` arrive as already parsed integers, with None for NaN. As written, `qty` is parsed with radix 12 (controllers/seller/shopControllers.js:27, 277), which reads `10` as 12.
- The category filter of `getProducts` is a predicate parameter. The product schema declares `category: [String]` (models/product.js:23-28), but the model's product record leaves that field out, so the filter is abstract.
- `Listing` assumes MongoDB's documented handling of `skip` and `limit`: a negative skip fails, a limit of n returns at most |n| documents, and a negative limit closes the cursor after the first batch. The batch size is not modelled.
- `Math.ceil` on doubles is modelled as an exact integer ceiling (`CeilDiv`); floating-point rounding of `total / qty` is left out.
- `initiatePayment`'s Amt is a number or text. A JSON body can also carry a boolean, an array or an object there; those are not modelled. Email and ItemDesc are taken as text.
- `addToCart` and `updateCart` take the quantity as a number. A quantity sent as a string would be concatenated by `+=`; this is not modelled.
- `createOrder` requires every cart line's product to exist in the catalogue. As written, a line whose product was deleted has a `null` product, and `cartItem.product._id` throws when it is read. If the `find` of a selection reaches that line first (controllers/user/orderControllers.js:45-49), the answer is 500 before anything is stored. If every selection matches an earlier line, the order is created and pushed to the user and the seller (lines 100-121), and only the prune filter at line 124 throws: the answer is 500 with the order stored and the cart not pruned. Neither path is modelled.
- `chooseSelectedCart` takes every product's `sellerOwned` to be a seller. As written, the nested populate (controllers/user/cartControllers.js:149-156) gives a `null` sellerOwned for a deleted seller, `item.product.sellerOwned._id` (line 179) throws, and the answer is 500. The product record's seller is not optional, so this is not modelled.
- `createOrder`'s coupon is the document `Coupon.findOne({ _id, user })` returns, and it is a parameter. The coupon schema has no `user` field, so as written the lookup may find nothing.
- The `!pay` guard of `createOrder` refuses pay 0, which the order schema's enum defines as card payment. The model keeps the guard.
- A coupon's productType is ignored by `createOrder`, which tests only `productChoose`. The model keeps this.
- The `Review` document, its `save`, and the `$push` to the product's reviews (controllers/user/orderControllers.js:303-320) are left out. So are the `$push` of the new order to the user and the seller (lines 114-121). The orderItem schema declares no `review` field, so Mongoose's strict mode may drop the stored review; the model sets it.
- The product schema (models/product.js) declares no `tags` path either, so under Mongoose's strict mode the `$addToSet` and `$pull` on `tags` (controllers/seller/shopControllers.js:391, 450, 482) may be stripped from the update. The model applies them.
- `createCoupon`'s `$push` of the new coupon into the seller's discount list (controllers/seller/shopControllers.js:395-397) is left out.
- The coupon dates are integers (epoch milliseconds). An unparsable date, which compares false and so passes the date check, is not modelled.
- An absent `image` list makes `image.length` throw. An empty list gives `undefined` images, which the model renders as `None`.
- The product image map is shared by `createProduct` and `updateProduct` (controllers/seller/shopControllers.js:110-113, 171-174). The rest of those handlers is record copying and left out.
- models/cart.js is not part of this model. Cart lines are shaped after what the handlers read.
- PaymentCodec.ToUpper: shifts only the ASCII letters a–z. JavaScript's `toUpperCase` also maps other letters, some to two characters (`ß` to `SS`). The two agree on the lower-case hex text SHA-256 digests are, but `sha256Hex` is an unconstrained function value, so the model does not state that its output is hex.
- A string holding a lone surrogate makes `encodeURIComponent` throw a `URIError`. A Dafny `char` is a Unicode scalar value, so such strings cannot be formed and that error path is not modelled.
- Integers are unbounded; JavaScript Numbers above 2^53 lose precision, which is not modelled.
- The unused `orders` cache at controllers/paymentController.js:10 is left out.

## Findings

| source | as written | input that shows it | evidently intended | confidence | as-written member | corrected member |
|---|---|---|---|---|---|---|
| controllers/user/cartControllers.js:207-210 | the summary total adds `item.price * item.quantity`, but a line's price is already quantity × unit price (lines 42, 49, 253) | one line of 2 at 10 (price 20): the cart total is 20, the summary says 40 | the sum of the line prices, as every other handler computes | high, not executed | CartController.SelectedTotalAsWritten, CartController.SelectedTotalDoubleCounts | CartController.ChooseSelectedCart (total via CartController.SumPrices, equal to Models.LinesTotal) |
| controllers/user/cartControllers.js:405-410 | the seller test reads `product.seller`, a path the product schema lacks (it is `sellerOwned`), so `.toString()` on undefined throws and the handler answers 500 | a coupon of productType 1 from seller s, on a product whose sellerOwned is s | compare the coupon's seller with `product.sellerOwned` | high, not executed | CartController.ValidateCouponAsWritten, CartController.SellerCouponRejectedAsWritten, CartController.SellerCouponExample | CartController.ValidateCoupon, CartController.ValidateCouponByType |

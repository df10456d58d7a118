/**
 * The order handlers of controllers/user/orderControllers.js: creating an
 * order from selected cart lines (one seller, summed prices, an optional
 * coupon, the selected lines leaving the cart) and attaching a review to
 * one line of an order.
 */
module OrderController {
  import opened Common
  import opened Models
  import opened CartController

  /** The body of a create-order request; an absent field reads as "" or 0. */
  datatype OrderRequest = OrderRequest(
    selectedItems: Option<seq<Selection>>,
    address: string,
    delivery: string,
    pay: int,
    fare: int,
    couponId: CouponId)

  /** The first guards: `selectedItems` missing, not an array or empty, or `!address || !delivery || !pay || !fare`. */
  predicate Invalid(req: OrderRequest)
  {
    || req.selectedItems.None? || req.selectedItems.value == []
    || req.address == "" || req.delivery == "" || req.pay == 0 || req.fare == 0
  }

  /** The index of the cart line a selection names, by `cart.items.find`. */
  function MatchOf(lines: seq<CartItem>, s: Selection): Option<nat>
  {
    FindFirst(lines, LineOf(s.productId, s.formatId))
  }

  /** Every selection names a line of the cart. */
  predicate AllMatched(lines: seq<CartItem>, sels: seq<Selection>)
  {
    forall k | 0 <= k < |sels| :: MatchOf(lines, sels[k]).Some?
  }

  /** `cartItem.product.sellerOwned` of a line whose product is in the catalogue. */
  function LineSeller(catalog: map<ProductId, Product>, line: CartItem): SellerId
  {
    if line.product in catalog then catalog[line.product].sellerOwned else ""
  }

  /** The seller of the line a selection names. */
  function SellerAt(lines: seq<CartItem>, catalog: map<ProductId, Product>, s: Selection): SellerId
    requires MatchOf(lines, s).Some?
  {
    LineSeller(catalog, lines[MatchOf(lines, s).value])
  }

  /** All the named lines belong to the seller of the first one. */
  predicate SameSeller(lines: seq<CartItem>, catalog: map<ProductId, Product>, sels: seq<Selection>)
    requires AllMatched(lines, sels) && sels != []
  {
    forall k | 0 <= k < |sels| :: SellerAt(lines, catalog, sels[k]) == SellerAt(lines, catalog, sels[0])
  }

  /** The order line copied from a cart line; a new order line has no review. */
  function OrderItemOf(line: CartItem): OrderItem
  {
    OrderItem(line.product, line.format, line.quantity, line.price, None)
  }

  /** The order lines, one per selection, in selection order. */
  function OrderItemsFor(lines: seq<CartItem>, sels: seq<Selection>): (r: seq<OrderItem>)
    requires AllMatched(lines, sels)
    ensures |r| == |sels|
  {
    seq(|sels|, k requires 0 <= k < |sels| && AllMatched(lines, sels) => OrderItemOf(lines[MatchOf(lines, sels[k]).value]))
  }

  function ItemsTotal(items: seq<OrderItem>): int
  {
    if items == [] then 0 else ItemsTotal(items[..|items| - 1]) + items[|items| - 1].price
  }

  /** What the selection loop has gathered so far: the seller of the lines (None before the first),
      the order lines and their price sum. */
  datatype Gathered = Gathered(seller: Option<SellerId>, items: seq<OrderItem>, total: int)

  /** The selection loop as a fold over the selections; None once a selection names no cart line or
      a line of another seller than the earlier ones. */
  function Gather(lines: seq<CartItem>, catalog: map<ProductId, Product>, sels: seq<Selection>): Option<Gathered>
  {
    if sels == [] then Some(Gathered(None, [], 0))
    else
      match Gather(lines, catalog, sels[..|sels| - 1])
      case None => None
      case Some(g) =>
        match MatchOf(lines, sels[|sels| - 1])
        case None => None
        case Some(j) =>
          var s := LineSeller(catalog, lines[j]);
          if g.seller.Some? && g.seller.value != s then None
          else Some(Gathered(Some(s), g.items + [OrderItemOf(lines[j])], g.total + lines[j].price))
  }

  /** Once the loop has stopped it stays stopped. */
  lemma {:induction false} GatherStops(lines: seq<CartItem>, catalog: map<ProductId, Product>, sels: seq<Selection>, i: nat)
    requires i <= |sels| && Gather(lines, catalog, sels[..i]).None?
    ensures Gather(lines, catalog, sels).None?
  {
    if i < |sels| {
      assert sels[..|sels| - 1][..i] == sels[..i];
      GatherStops(lines, catalog, sels[..|sels| - 1], i);
    } else {
      assert sels[..i] == sels;
    }
  }

  lemma ItemsTotalAppend(items: seq<OrderItem>, x: OrderItem)
    ensures ItemsTotal(items + [x]) == ItemsTotal(items) + x.price
  {
    assert (items + [x])[..|items|] == items;
  }

  lemma AllMatchedSnoc(lines: seq<CartItem>, sels: seq<Selection>)
    requires sels != []
    ensures AllMatched(lines, sels)
        <==> AllMatched(lines, sels[..|sels| - 1]) && MatchOf(lines, sels[|sels| - 1]).Some?
  {
    assert forall k | 0 <= k < |sels| - 1 :: sels[..|sels| - 1][k] == sels[k];
  }

  lemma SameSellerSnoc(lines: seq<CartItem>, catalog: map<ProductId, Product>, sels: seq<Selection>)
    requires |sels| > 1 && AllMatched(lines, sels)
    ensures AllMatched(lines, sels[..|sels| - 1])
    ensures SameSeller(lines, catalog, sels)
        <==> SameSeller(lines, catalog, sels[..|sels| - 1])
             && SellerAt(lines, catalog, sels[|sels| - 1]) == SellerAt(lines, catalog, sels[0])
  {
    AllMatchedSnoc(lines, sels);
    assert forall k | 0 <= k < |sels| - 1 :: sels[..|sels| - 1][k] == sels[k];
  }

  lemma OrderItemsForSnoc(lines: seq<CartItem>, sels: seq<Selection>)
    requires sels != [] && AllMatched(lines, sels)
    ensures AllMatched(lines, sels[..|sels| - 1])
    ensures OrderItemsFor(lines, sels)
         == OrderItemsFor(lines, sels[..|sels| - 1]) + [OrderItemOf(lines[MatchOf(lines, sels[|sels| - 1]).value])]
  {
    AllMatchedSnoc(lines, sels);
    assert forall k | 0 <= k < |sels| - 1 :: sels[..|sels| - 1][k] == sels[k];
  }

  /** The fold succeeds exactly when every selection names a cart line and all those lines have one
      seller, which it then holds. */
  lemma {:induction false} GatherSeller(lines: seq<CartItem>, catalog: map<ProductId, Product>, sels: seq<Selection>)
    ensures var g := Gather(lines, catalog, sels);
      && (g.Some? <==> AllMatched(lines, sels) && (sels != [] ==> SameSeller(lines, catalog, sels)))
      && (g.Some? ==> (g.value.seller.None? <==> sels == []))
      && (g.Some? && sels != [] ==> g.value.seller == Some(SellerAt(lines, catalog, sels[0])))
  {
    if sels != [] {
      var n := |sels| - 1;
      var pre := sels[..n];
      GatherSeller(lines, catalog, pre);
      AllMatchedSnoc(lines, sels);
      if n > 0 {
        assert pre[0] == sels[0];
        if AllMatched(lines, sels) {
          SameSellerSnoc(lines, catalog, sels);
        }
      }
    }
  }

  /** A successful fold holds the order lines of the selections, in their order, and their price sum. */
  lemma {:induction false} GatherItems(lines: seq<CartItem>, catalog: map<ProductId, Product>, sels: seq<Selection>)
    requires Gather(lines, catalog, sels).Some?
    ensures AllMatched(lines, sels)
    ensures Gather(lines, catalog, sels).value.items == OrderItemsFor(lines, sels)
    ensures Gather(lines, catalog, sels).value.total == ItemsTotal(Gather(lines, catalog, sels).value.items)
  {
    GatherSeller(lines, catalog, sels);
    if sels != [] {
      var n := |sels| - 1;
      var g := Gather(lines, catalog, sels[..n]).value;
      GatherItems(lines, catalog, sels[..n]);
      var j := MatchOf(lines, sels[n]).value;
      OrderItemsForSnoc(lines, sels);
      ItemsTotalAppend(g.items, OrderItemOf(lines[j]));
    }
  }

  /** What the selection loop hands on: the one seller, the order lines and their price sum. */
  datatype Collected = Collected(seller: SellerId, items: seq<OrderItem>, total: int)

  /** The `for (const item of selectedItems)` loop: 400 as soon as a selection names no cart line or a
      line of another seller; otherwise one order line per selection and the sum of their prices. */
  method CollectOrderItems(lines: seq<CartItem>, catalog: map<ProductId, Product>, sels: seq<Selection>)
    returns (r: Result<Collected>)
    requires sels != []
    ensures r.Ok? <==> AllMatched(lines, sels) && SameSeller(lines, catalog, sels)
    ensures r.Err? ==> r.status == BadRequest
    ensures r.Ok? ==> r.value.seller == SellerAt(lines, catalog, sels[0])
    ensures r.Ok? ==> r.value.items == OrderItemsFor(lines, sels) && r.value.total == ItemsTotal(r.value.items)
  {
    var seller: Option<SellerId> := None;
    var items: seq<OrderItem> := [];
    var total := 0;
    for i := 0 to |sels|
      invariant Gather(lines, catalog, sels[..i]) == Some(Gathered(seller, items, total))
    {
      assert sels[..i + 1][..i] == sels[..i];
      var hit := MatchOf(lines, sels[i]);
      if hit.None? {
        GatherStops(lines, catalog, sels, i + 1);
        GatherSeller(lines, catalog, sels);
        return Err(BadRequest);
      }
      var line := lines[hit.value];
      var s := LineSeller(catalog, line);
      if seller.Some? && seller.value != s {
        GatherStops(lines, catalog, sels, i + 1);
        GatherSeller(lines, catalog, sels);
        return Err(BadRequest);
      }
      seller := Some(s);
      items := items + [OrderItemOf(line)];
      total := total + line.price;
    }
    assert sels[..|sels|] == sels;
    GatherSeller(lines, catalog, sels);
    GatherItems(lines, catalog, sels);
    r := Ok(Collected(seller.value, items, total));
  }

  /** `coupon.type === 1 ? percentage * total / 100 : 0`, subtracted, then clamped at 0. */
  function DiscountedTotal(c: Coupon, total: real): real
  {
    var discount := if c.kind == 1 then c.percentage as real * total / 100.0 else 0.0;
    if total - discount < 0.0 then 0.0 else total - discount
  }

  /** The discount step of createOrder, as the handler performs it on its running total. */
  method ApplyCoupon(c: Coupon, total: real) returns (totalPrice: real)
    ensures totalPrice == DiscountedTotal(c, total)
  {
    totalPrice := total;
    var discount := if c.kind == 1 then c.percentage as real * totalPrice / 100.0 else 0.0;
    totalPrice := totalPrice - discount;
    if totalPrice < 0.0 {
      totalPrice := 0.0;
    }
  }

  /** For a non-negative total the discounted total is never negative and never more than the total;
      a percentage coupon removes that share of it (all of it from 100 up), a free-shipping coupon
      changes nothing. */
  lemma DiscountedTotalSpec(c: Coupon, total: real)
    requires total >= 0.0 && c.percentage >= 0
    ensures 0.0 <= DiscountedTotal(c, total) <= total
    ensures c.kind != 1 ==> DiscountedTotal(c, total) == total
    ensures c.kind == 1 && c.percentage <= 100 ==>
      DiscountedTotal(c, total) == total * (100 - c.percentage) as real / 100.0
    ensures c.kind == 1 && c.percentage >= 100 ==> DiscountedTotal(c, total) == 0.0
  {
    if c.kind == 1 {
      var p := c.percentage as real;
      assert p * total / 100.0 >= 0.0;
      if c.percentage >= 100 {
        assert p * total >= 100.0 * total;
      }
    }
  }

  /** A negative total (lines of negative quantity) is clamped to 0. */
  lemma DiscountedTotalNeverNegative(c: Coupon, total: real)
    ensures DiscountedTotal(c, total) >= 0.0
  {
  }

  /** The coupon checks of createOrder: found, enabled, not past its end date, and listing at least one
      of the ordered products. The coupon's productType and start date are not consulted. */
  predicate CouponUsable(coupon: Option<Coupon>, items: seq<OrderItem>, now: int)
  {
    && coupon.Some? && coupon.value.isEnabled && !(coupon.value.endDate < now)
    && exists k | 0 <= k < |items| :: items[k].product in coupon.value.productChoose
  }

  /** A coupon that lists no product is refused, whatever its productType. */
  lemma CouponWithoutProductsRefused(c: Coupon, items: seq<OrderItem>, now: int)
    requires c.productChoose == []
    ensures !CouponUsable(Some(c), items, now)
  {
  }

  /** `createOrder`. `coupon` is the document `Coupon.findOne` returns for the request's couponId,
      `now` the clock reading and `newId` the new order's id. */
  method CreateOrder(store: OrderStore, cart: Cart?, catalog: map<ProductId, Product>, userId: UserId,
                     req: OrderRequest, coupon: Option<Coupon>, now: int, newId: OrderId)
    returns (r: Result<Order>)
    modifies store, cart
    requires cart != null ==> forall line | line in cart.items :: line.product in catalog
    ensures r.Err? ==> r.status == BadRequest && unchanged(store) && (cart != null ==> unchanged(cart))
    ensures r.Ok? <==>
      && !Invalid(req) && cart != null && old(cart.items) != []
      && AllMatched(old(cart.items), req.selectedItems.value)
      && SameSeller(old(cart.items), catalog, req.selectedItems.value)
      && (req.couponId != "" ==> CouponUsable(coupon, OrderItemsFor(old(cart.items), req.selectedItems.value), now))
    ensures r.Ok? ==>
      var sels := req.selectedItems.value;
      var items := OrderItemsFor(old(cart.items), sels);
      var total := ItemsTotal(items) as real;
      && r.value == Order(newId, userId, SellerAt(old(cart.items), catalog, sels[0]), items, 0,
                          if req.couponId == "" then total else DiscountedTotal(coupon.value, total),
                          req.pay, req.address, req.delivery, req.fare, None, None, None)
      && store.orders == old(store.orders) + [r.value]
      && cart.user == old(cart.user)
      && cart.items == Unselected(old(cart.items), sels) && cart.Valid()
  {
    if Invalid(req) {
      return Err(BadRequest);
    }
    if cart == null || cart.items == [] {
      return Err(BadRequest);
    }
    var sels := req.selectedItems.value;
    var collected := CollectOrderItems(cart.items, catalog, sels);
    if collected.Err? {
      return Err(BadRequest);
    }
    var items := collected.value.items;
    var totalPrice := collected.value.total as real;
    if req.couponId != "" {
      if !CouponUsable(coupon, items, now) {
        return Err(BadRequest);
      }
      totalPrice := ApplyCoupon(coupon.value, totalPrice);
    }
    var order := Order(newId, userId, collected.value.seller, items, 0, totalPrice,
                       req.pay, req.address, req.delivery, req.fare, None, None, None);
    store.orders := store.orders + [order];
    cart.Prune(sels);
    r := Ok(order);
  }

  // ---- createReview ----

  function IsUsersOrder(orderId: OrderId, userId: UserId): Order -> bool
  {
    (o: Order) => o.id == orderId && o.user == userId
  }

  function HasProduct(productId: ProductId): OrderItem -> bool
  {
    (item: OrderItem) => item.product == productId
  }

  /** The orders after `createReview`: 404 when the user has no such order or the order no such
      product, 400 when that line already has a review; otherwise that line links the review. */
  function Reviewed(orders: seq<Order>, orderId: OrderId, userId: UserId, productId: ProductId,
                    reviewId: ReviewId): Result<seq<Order>>
  {
    match FindFirst(orders, IsUsersOrder(orderId, userId))
    case None => Err(NotFound)
    case Some(i) =>
      match FindFirst(orders[i].products, HasProduct(productId))
      case None => Err(NotFound)
      case Some(j) =>
        if orders[i].products[j].review.Some? then Err(BadRequest)
        else
          var line := orders[i].products[j].(review := Some(reviewId));
          Ok(orders[i := orders[i].(products := orders[i].products[j := line])])
  }

  /** A successful review sets the review of one line of one order and changes nothing else. */
  lemma ReviewedChangesOneLine(orders: seq<Order>, orderId: OrderId, userId: UserId, productId: ProductId,
                               reviewId: ReviewId)
    requires Reviewed(orders, orderId, userId, productId, reviewId).Ok?
    ensures var after := Reviewed(orders, orderId, userId, productId, reviewId).value;
      var i := FindFirst(orders, IsUsersOrder(orderId, userId)).value;
      var j := FindFirst(orders[i].products, HasProduct(productId)).value;
      && |after| == |orders|
      && orders[i].id == orderId && orders[i].user == userId && orders[i].products[j].product == productId
      && orders[i].products[j].review.None?
      && after[i].products[j] == orders[i].products[j].(review := Some(reviewId))
      && |after[i].products| == |orders[i].products|
      && (forall m | 0 <= m < |orders[i].products| && m != j :: after[i].products[m] == orders[i].products[m])
      && after[i] == orders[i].(products := after[i].products)
      && (forall n | 0 <= n < |orders| && n != i :: after[n] == orders[n])
  {
    var i := FindFirst(orders, IsUsersOrder(orderId, userId)).value;
    assert IsUsersOrder(orderId, userId)(orders[i]);
    var j := FindFirst(orders[i].products, HasProduct(productId)).value;
    assert HasProduct(productId)(orders[i].products[j]);
  }

  /** A line is reviewed at most once: reviewing it again fails with 400. */
  lemma ReviewedOnce(orders: seq<Order>, orderId: OrderId, userId: UserId, productId: ProductId,
                     reviewId: ReviewId, again: ReviewId)
    requires Reviewed(orders, orderId, userId, productId, reviewId).Ok?
    ensures Reviewed(Reviewed(orders, orderId, userId, productId, reviewId).value, orderId, userId, productId, again)
         == Err(BadRequest)
  {
    var after := Reviewed(orders, orderId, userId, productId, reviewId).value;
    var i := FindFirst(orders, IsUsersOrder(orderId, userId)).value;
    var j := FindFirst(orders[i].products, HasProduct(productId)).value;
    ReviewedChangesOneLine(orders, orderId, userId, productId, reviewId);
    assert IsUsersOrder(orderId, userId)(after[i]);
    assert forall n | 0 <= n < i :: after[n] == orders[n];
    assert FindFirst(after, IsUsersOrder(orderId, userId)) == Some(i);
    assert HasProduct(productId)(after[i].products[j]);
    assert forall m | 0 <= m < j :: after[i].products[m] == orders[i].products[m];
    assert FindFirst(after[i].products, HasProduct(productId)) == Some(j);
  }

  /** `createReview`: finds the user's order and the product's line in it, refuses a line that already
      has a review, and otherwise sets the line's review in place. */
  method CreateReview(store: OrderStore, orderId: OrderId, userId: UserId, productId: ProductId, reviewId: ReviewId)
    returns (r: Result<ReviewId>)
    modifies store
    ensures match Reviewed(old(store.orders), orderId, userId, productId, reviewId)
      case Err(s) => r == Err(s) && unchanged(store)
      case Ok(after) => r == Ok(reviewId) && store.orders == after
  {
    var hit := FindFirst(store.orders, IsUsersOrder(orderId, userId));
    if hit.None? {
      return Err(NotFound);
    }
    var i := hit.value;
    var order := store.orders[i];
    var entry := FindFirst(order.products, HasProduct(productId));
    if entry.None? {
      return Err(NotFound);
    }
    var j := entry.value;
    if order.products[j].review.Some? {
      return Err(BadRequest);
    }
    var line := order.products[j].(review := Some(reviewId));
    store.orders := store.orders[i := order.(products := order.products[j := line])];
    r := Ok(reviewId);
  }
}

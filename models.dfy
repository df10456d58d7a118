/**
 * The records the handlers read and write (the schemas under models), with the
 * database replaced by in-memory values: a collection is a sequence in
 * insertion order, whose first match is what `findOne` returns.
 */
module Models {
  import opened Common

  type ProductId = string
  type FormatId = string
  type SellerId = string
  type UserId = string
  type OrderId = string
  type CouponId = string
  type ReviewId = string

  /** One purchasable format (variant) of a product. */
  datatype Format = Format(id: FormatId, title: string, price: int, image: Option<string>)

  datatype Product = Product(
    id: ProductId,
    sellerOwned: SellerId,
    format: seq<Format>,
    fare: int,
    pay: seq<int>,
    image: seq<string>,
    tags: seq<int>)

  /** A cart line: the product, the format as it was when added, the quantity and the line price. */
  datatype CartItem = CartItem(product: ProductId, format: Format, quantity: int, price: int)

  /** `coupon.type`: 0 free shipping, 1 percentage discount.
      `coupon.productType`: 0 whole site, 1 all of a seller's products, 2 the products listed in productChoose. */
  datatype Coupon = Coupon(
    id: CouponId,
    couponName: string,
    startDate: int,
    endDate: int,
    kind: int,
    discountConditions: int,
    percentage: int,
    productType: int,
    productChoose: seq<ProductId>,
    isEnabled: bool,
    seller: Option<SellerId>)

  datatype OrderItem = OrderItem(product: ProductId, format: Format, quantity: int, price: int, review: Option<ReviewId>)

  /** An order. `state` is 0 (unpaid) or 1 (paid); merchantOrderNo, tradeNo and payTime are
      the gateway fields the notification handler filters on and writes. */
  datatype Order = Order(
    id: OrderId,
    user: UserId,
    seller: SellerId,
    products: seq<OrderItem>,
    state: int,
    totalPrice: real,
    pay: int,
    address: string,
    delivery: string,
    fare: int,
    merchantOrderNo: Option<string>,
    tradeNo: Option<string>,
    payTime: Option<string>)

  /** The Orders collection. */
  class OrderStore {
    var orders: seq<Order>

    constructor (orders: seq<Order>)
      ensures this.orders == orders
    {
      this.orders := orders;
    }
  }

  /** The index of the first element satisfying `p`, as `find` / `findIndex` / `findOne` locate it. */
  function FindFirst<T>(s: seq<T>, p: T -> bool): (r: Option<nat>)
    ensures r.Some? ==> r.value < |s| && p(s[r.value]) && forall j | 0 <= j < r.value :: !p(s[j])
    ensures r.None? ==> forall j | 0 <= j < |s| :: !p(s[j])
  {
    if s == [] then None
    else if p(s[0]) then Some(0)
    else
      match FindFirst(s[1..], p)
      case None => None
      case Some(i) => Some(i + 1)
  }

  /** The elements of `s` satisfying `p`, in their order, as `Array.prototype.filter` keeps them. */
  function Filter<T>(s: seq<T>, p: T -> bool): (r: seq<T>)
    ensures |r| <= |s|
  {
    if s == [] then [] else Filter(s[..|s| - 1], p) + (if p(s[|s| - 1]) then [s[|s| - 1]] else [])
  }

  lemma {:induction false} FilterMembers<T>(s: seq<T>, p: T -> bool)
    ensures forall x :: x in Filter(s, p) <==> x in s && p(x)
  {
    if s != [] {
      var n := |s| - 1;
      FilterMembers(s[..n], p);
      assert s == s[..n] + [s[n]];
    }
  }

  lemma {:induction false} FilterBoth<T>(s: seq<T>, p: T -> bool, q: T -> bool, both: T -> bool)
    requires forall x :: both(x) == (p(x) && q(x))
    ensures Filter(Filter(s, p), q) == Filter(s, both)
  {
    if s != [] {
      var n := |s| - 1;
      FilterBoth(s[..n], p, q, both);
      var fp := Filter(s[..n], p);
      if p(s[n]) {
        assert Filter(s, p) == fp + [s[n]];
        assert (fp + [s[n]])[..|fp|] == fp;
        assert Filter(fp + [s[n]], q) == Filter(fp, q) + (if q(s[n]) then [s[n]] else []);
      } else {
        assert Filter(s, p) == fp;
      }
    }
  }

  lemma {:induction false} FilterSame<T>(s: seq<T>, p: T -> bool, q: T -> bool)
    requires forall x :: p(x) == q(x)
    ensures Filter(s, p) == Filter(s, q)
  {
    if s != [] {
      FilterSame(s[..|s| - 1], p, q);
    }
  }

  lemma {:induction false} NoneFiltered<T>(s: seq<T>, p: T -> bool)
    requires forall x :: !p(x)
    ensures Filter(s, p) == []
  {
    if s != [] {
      NoneFiltered(s[..|s| - 1], p);
    }
  }

  lemma {:induction false} IdentityFilter<T>(s: seq<T>, p: T -> bool)
    requires forall x :: p(x)
    ensures Filter(s, p) == s
  {
    if s != [] {
      IdentityFilter(s[..|s| - 1], p);
    }
  }

  /** The sum of the line prices, `items.reduce((total, item) => total + item.price, 0)`. */
  function LinesTotal(items: seq<CartItem>): int
  {
    if items == [] then 0 else LinesTotal(items[..|items| - 1]) + items[|items| - 1].price
  }

  lemma {:induction false} LinesTotalAppend(a: seq<CartItem>, b: seq<CartItem>)
    ensures LinesTotal(a + b) == LinesTotal(a) + LinesTotal(b)
  {
    if b == [] {
      assert a + b == a;
    } else {
      assert (a + b)[..|a + b| - 1] == a + b[..|b| - 1];
      LinesTotalAppend(a, b[..|b| - 1]);
    }
  }

  /** Replacing one line changes the total by exactly the change of that line's price. */
  lemma LinesTotalUpdate(items: seq<CartItem>, i: nat, line: CartItem)
    requires i < |items|
    ensures LinesTotal(items[i := line]) == LinesTotal(items) - items[i].price + line.price
  {
    var after := items[i := line];
    assert items == items[..i] + [items[i]] + items[i + 1..];
    assert after == items[..i] + [line] + items[i + 1..];
    LinesTotalAppend(items[..i] + [items[i]], items[i + 1..]);
    LinesTotalAppend(items[..i], [items[i]]);
    LinesTotalAppend(items[..i] + [line], items[i + 1..]);
    LinesTotalAppend(items[..i], [line]);
    assert LinesTotal([items[i]]) == items[i].price by { assert [items[i]][..0] == []; }
    assert LinesTotal([line]) == line.price by { assert [line][..0] == []; }
  }

  /** Removing one line lowers the total by exactly that line's price. */
  lemma LinesTotalRemove(items: seq<CartItem>, i: nat)
    requires i < |items|
    ensures LinesTotal(items[..i] + items[i + 1..]) == LinesTotal(items) - items[i].price
  {
    assert items == items[..i] + [items[i]] + items[i + 1..];
    LinesTotalAppend(items[..i] + [items[i]], items[i + 1..]);
    LinesTotalAppend(items[..i], [items[i]]);
    LinesTotalAppend(items[..i], items[i + 1..]);
    assert LinesTotal([items[i]]) == items[i].price by { assert [items[i]][..0] == []; }
  }
}

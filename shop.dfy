/**
 * The seller catalogue rules of controllers/seller/shopControllers.js:
 * the pagination of the product and coupon lists, the assignment of
 * images to formats, the coupon date check, the coupon list filter, and
 * the product tags that coupon creation and update maintain with
 * `$addToSet` and `$pull`.
 */
module ShopController {
  import opened Common
  import opened Models

  // ---- pagination ----

  /** `parsed || fallback` on an already parsed parameter: NaN (None) or 0 gives the fallback. */
  function PageParam(raw: Option<int>, fallback: int): (r: int)
    requires fallback != 0
    ensures r != 0
    ensures raw.Some? && raw.value != 0 ==> r == raw.value
    ensures raw.None? || raw.value == 0 ==> r == fallback
  {
    if raw.Some? && raw.value != 0 then raw.value else fallback
  }

  /** `Math.ceil(total / qty)` for an integer count and a non-zero integer page size. */
  function CeilDiv(total: nat, qty: int): (r: int)
    requires qty != 0
  {
    if qty > 0 then (total + qty - 1) / qty else -(total / -qty)
  }

  /** `(page - 1) * qty` */
  function Skip(page: int, qty: int): int
  {
    (page - 1) * qty
  }

  datatype Pagination = Pagination(totalPages: int, currentPage: int, hasPrev: bool, hasNext: bool)

  /** The pagination block for a list of `total` documents. */
  function Paginate(total: nat, page: int, qty: int): Pagination
    requires qty != 0
  {
    var totalPages := CeilDiv(total, qty);
    Pagination(totalPages, page, page > 1, page < totalPages)
  }

  /** With a positive page size, totalPages is the least number of pages of `qty` that hold `total`. */
  lemma TotalPagesLeast(total: nat, page: int, qty: int)
    requires qty > 0
    ensures var n := Paginate(total, page, qty).totalPages;
      && n >= 0 && n * qty >= total
      && (total > 0 ==> (n - 1) * qty < total)
      && (total == 0 ==> n == 0)
  {
    var n := (total + qty - 1) / qty;
    var m := (total + qty - 1) % qty;
    assert total + qty - 1 == n * qty + m && 0 <= m < qty;
    assert n * qty - qty == (n - 1) * qty;
  }

  /** hasPrev holds exactly when documents precede the page, and hasNext exactly when documents
      follow it: page·qty < total. Every page from 1 to totalPages starts inside the list, and a page
      past totalPages starts at or after its end. */
  lemma PaginationWindow(total: nat, page: int, qty: int)
    requires qty > 0
    ensures var p := Paginate(total, page, qty);
      && (p.hasPrev <==> Skip(page, qty) > 0)
      && (p.hasNext <==> page * qty < total)
      && (1 <= page <= p.totalPages ==> 0 <= Skip(page, qty) < total)
      && (page > p.totalPages && page >= 1 ==> Skip(page, qty) >= total)
  {
    var n := Paginate(total, page, qty).totalPages;
    TotalPagesLeast(total, page, qty);
    if page < n {
      assert page * qty <= (n - 1) * qty;
    }
    if page >= n {
      assert page * qty >= n * qty;
    }
    if 1 <= page <= n {
      assert (page - 1) * qty <= (n - 1) * qty;
    }
    if page > n {
      assert (page - 1) * qty >= n * qty;
    }
    if page > 1 {
      assert (page - 1) * qty > 0;
    } else {
      assert (page - 1) * qty <= 0;
    }
  }

  /** 25 products, 12 per page: 3 pages; page 1 has no previous page, page 3 no next one. */
  lemma PaginationExample()
    ensures Paginate(25, 1, 12) == Pagination(3, 1, false, true)
    ensures Paginate(25, 3, 12) == Pagination(3, 3, true, false)
    ensures Skip(3, 12) == 24
  {
  }

  /** `page`: 1 when absent or 0. */
  function PageOf(raw: Option<int>): int
  {
    PageParam(raw, 1)
  }

  /** `qty`: 12 when absent or 0. */
  function QtyOf(raw: Option<int>): int
  {
    PageParam(raw, 12)
  }

  // ---- lists ----

  /** `.skip(skip).limit(limit)` on the matching documents. */
  function Window<T>(s: seq<T>, skip: nat, limit: nat): (w: seq<T>)
    ensures |w| <= limit
    ensures forall x | x in w :: x in s
  {
    var lo := if skip < |s| then skip else |s|;
    var hi := if skip + limit < |s| then skip + limit else |s|;
    s[lo..hi]
  }

  /** A listing: MongoDB refuses a negative skip, which the handler answers with `failure`; a
      negative limit returns at most its absolute value of documents. The pagination is computed
      from `counted`, which need not be the number of documents the query matched. */
  function Listing<T>(matching: seq<T>, counted: nat, page: int, qty: int, failure: nat)
    : Result<(seq<T>, Pagination)>
    requires qty != 0
  {
    if Skip(page, qty) < 0 then Err(failure)
    else Ok((Window(matching, Skip(page, qty), if qty < 0 then -qty else qty), Paginate(counted, page, qty)))
  }

  /** A listing of page `page` holds at most qty documents, the consecutive run of the matching
      documents that starts after the first (page - 1)·qty; it is refused exactly when the skip is
      negative. */
  lemma ListingSpec<T>(matching: seq<T>, counted: nat, page: int, qty: int, failure: nat)
    requires qty > 0
    ensures var r := Listing(matching, counted, page, qty, failure);
      && (r.Err? <==> page < 1)
      && (r.Err? ==> r.status == failure)
      && (r.Ok? ==>
            && |r.value.0| <= qty && r.value.1 == Paginate(counted, page, qty)
            && (forall k | 0 <= k < |r.value.0| :: r.value.0[k] == matching[(page - 1) * qty + k])
            && ((page - 1) * qty + qty <= |matching| ==> |r.value.0| == qty))
  {
    if page < 1 {
      assert (page - 1) * qty < 0 by { MulNonNeg(1 - page, qty); assert (1 - page) * qty >= qty; }
    } else {
      MulNonNeg(page - 1, qty);
    }
  }

  function OwnedBy(seller: SellerId): Product -> bool
  {
    (p: Product) => p.sellerOwned == seller
  }

  /** `getProducts`: the seller's products, narrowed by the category when one is given; the page
      count is taken from all the seller's products. A negative skip answers 404. */
  function GetProducts(products: seq<Product>, seller: SellerId, category: Option<Product -> bool>,
                       page: Option<int>, qty: Option<int>): Result<(seq<Product>, Pagination)>
  {
    var owned := Filter(products, OwnedBy(seller));
    var matching := if category.None? then owned else Filter(owned, category.value);
    Listing(matching, |owned|, PageOf(page), QtyOf(qty), NotFound)
  }

  /** Whatever the category, the pagination block is the same: it counts every product the seller
      owns, so a narrowed list can report more pages than it has. */
  lemma ProductPagesIgnoreCategory(products: seq<Product>, seller: SellerId, c1: Option<Product -> bool>,
                                   c2: Option<Product -> bool>, page: Option<int>, qty: Option<int>)
    ensures GetProducts(products, seller, c1, page, qty).Ok? <==> GetProducts(products, seller, c2, page, qty).Ok?
    ensures GetProducts(products, seller, c1, page, qty).Ok? ==>
      GetProducts(products, seller, c1, page, qty).value.1 == GetProducts(products, seller, c2, page, qty).value.1
  {
  }

  /** Every listed product belongs to the seller and is in the category. */
  lemma GetProductsMembers(products: seq<Product>, seller: SellerId, category: Option<Product -> bool>,
                           page: Option<int>, qty: Option<int>)
    ensures var r := GetProducts(products, seller, category, page, qty);
      r.Ok? ==> forall p | p in r.value.0 ::
        p in products && p.sellerOwned == seller && (category.Some? ==> category.value(p))
  {
    var owned := Filter(products, OwnedBy(seller));
    FilterMembers(products, OwnedBy(seller));
    if category.Some? {
      FilterMembers(owned, category.value);
    }
  }

  // ---- formats and images ----

  /** `format.map((format, index) => ({ ...format, image: image[index % image.length] }))`;
      with no images `index % 0` is NaN and the format gets no image. */
  function WithImages(formats: seq<Format>, images: seq<string>): (r: seq<Format>)
    ensures |r| == |formats|
  {
    seq(|formats|, i requires 0 <= i < |formats| =>
      formats[i].(image := if images == [] then None else Some(images[i % |images|])))
  }

  /** Format i gets image i mod the number of images and keeps its id, title and price; the images
      repeat with period |images|, and when there are at least as many images as formats format i
      gets image i. */
  lemma WithImagesCyclic(formats: seq<Format>, images: seq<string>)
    requires images != []
    ensures var r := WithImages(formats, images);
      && (forall i | 0 <= i < |r| :: r[i].image == Some(images[i % |images|]))
      && (forall i | 0 <= i < |r| :: r[i].id == formats[i].id && r[i].title == formats[i].title && r[i].price == formats[i].price)
      && (forall i | 0 <= i < |r| - |images| :: r[i].image == r[i + |images|].image)
      && (|formats| <= |images| ==> forall i | 0 <= i < |r| :: r[i].image == Some(images[i]))
  {
    var r := WithImages(formats, images);
    forall i | 0 <= i < |r| - |images| ensures r[i].image == r[i + |images|].image {
      ModShift(i, |images|);
    }
    if |formats| <= |images| {
      forall i | 0 <= i < |r| ensures r[i].image == Some(images[i]) {
        DivModUnique(i, |images|, 0, i);
      }
    }
  }

  lemma ModShift(i: nat, n: nat)
    requires n > 0
    ensures (i + n) % n == i % n
  {
    var q := i / n;
    var m := i % n;
    assert i == q * n + m;
    assert i + n == (q + 1) * n + m;
    DivModUnique(i + n, n, q + 1, m);
  }

  lemma DivModUnique(x: int, n: int, q: int, m: int)
    requires n > 0 && 0 <= m < n && x == q * n + m
    ensures x % n == m
  {
    var q' := x / n;
    var m' := x % n;
    assert x == q' * n + m';
    var d := q - q';
    assert d * n == q * n - q' * n;
    assert d * n == m' - m;
    if d >= 1 {
      assert d * n == (d - 1) * n + n;
      MulNonNeg(d - 1, n);
    } else if d <= -1 {
      assert -d * n == (-d - 1) * n + n;
      MulNonNeg(-d - 1, n);
    }
  }

  lemma MulNonNeg(a: int, b: int)
    requires a >= 0 && b >= 0
    ensures a * b >= 0
  {
  }

  // ---- coupons ----

  /** The coupon fields of a create or update request. */
  datatype CouponBody = CouponBody(
    couponName: string,
    startDate: int,
    endDate: int,
    kind: int,
    discountConditions: int,
    percentage: int,
    productType: int,
    productChoose: seq<ProductId>,
    isEnabled: bool)

  /** `new Date(startDate) > new Date(endDate)` is refused; equal dates are allowed. */
  predicate DatesValid(body: CouponBody)
  {
    !(body.startDate > body.endDate)
  }

  function CouponOf(id: CouponId, seller: SellerId, body: CouponBody): Coupon
  {
    Coupon(id, body.couponName, body.startDate, body.endDate, body.kind, body.discountConditions,
           body.percentage, body.productType, body.productChoose, body.isEnabled, Some(seller))
  }

  /** The product tag a coupon sets: 0 for a free-shipping coupon, 1 for any other. */
  function TagOf(kind: int): (t: int)
    ensures t == 0 || t == 1
    ensures t == 0 <==> kind == 0
  {
    if kind == 0 then 0 else 1
  }

  /** The products the tag update selects: all the seller's products for productType 1, the products
      listed in productChoose for productType 2 (whoever sells them), none otherwise. */
  function Scope(products: map<ProductId, Product>, seller: SellerId, productType: int, choose: seq<ProductId>)
    : (s: set<ProductId>)
    ensures s <= products.Keys
  {
    if productType == 1 then set id | id in products && products[id].sellerOwned == seller
    else if productType == 2 then set id | id in products && id in choose
    else {}
  }

  /** `$addToSet`: the tag is appended unless already present. */
  function AddToSet(tags: seq<int>, t: int): seq<int>
  {
    if t in tags then tags else tags + [t]
  }

  /** `$pull`: every occurrence of the tag is removed. */
  function Pull(tags: seq<int>, t: int): seq<int>
  {
    Filter(tags, (x: int) => x != t)
  }

  predicate NoDup(tags: seq<int>)
  {
    forall i, j | 0 <= i < j < |tags| :: tags[i] != tags[j]
  }

  /** `Products.updateMany(scope, { $addToSet: { tags: t } })` */
  function AddTagAll(products: map<ProductId, Product>, scope: set<ProductId>, t: int): (r: map<ProductId, Product>)
    ensures r.Keys == products.Keys
  {
    map id | id in products :: if id in scope then products[id].(tags := AddToSet(products[id].tags, t)) else products[id]
  }

  /** `Products.updateMany(scope, { $pull: { tags: t } })` */
  function PullTagAll(products: map<ProductId, Product>, scope: set<ProductId>, t: int): (r: map<ProductId, Product>)
    ensures r.Keys == products.Keys
  {
    map id | id in products :: if id in scope then products[id].(tags := Pull(products[id].tags, t)) else products[id]
  }

  /** No product carries a tag twice. */
  predicate TagsDistinct(products: map<ProductId, Product>)
  {
    forall id | id in products :: NoDup(products[id].tags)
  }

  lemma NoDupOccursOnce(tags: seq<int>, t: int)
    requires NoDup(tags) && t in tags
    ensures OccursOnce(t, tags)
  {
    var k :| 0 <= k < |tags| && tags[k] == t;
    assert tags == tags[..k] + [t] + tags[k + 1..];
    assert t !in tags[..k] && t !in tags[k + 1..] by {
      forall j | 0 <= j < |tags| && j != k ensures tags[j] != t { }
    }
    assert multiset(tags) == multiset(tags[..k]) + multiset{t} + multiset(tags[k + 1..]);
  }

  /** After the add-to-set step every product in scope carries its old tags and the new tag and
      nothing else, the new one exactly once if it carried no tag twice before; products outside the scope are unchanged; and no product
      gains a duplicate tag. */
  lemma AddTagAllSpec(products: map<ProductId, Product>, scope: set<ProductId>, t: int)
    ensures var r := AddTagAll(products, scope, t);
      && (forall id | id in scope && id in products ::
            (forall x :: x in r[id].tags <==> x in products[id].tags || x == t)
            && r[id] == products[id].(tags := r[id].tags))
      && (forall id | id in products && id !in scope :: r[id] == products[id])
      && (TagsDistinct(products) ==> TagsDistinct(r) && forall id | id in scope && id in products :: OccursOnce(t, r[id].tags))
  {
    var r := AddTagAll(products, scope, t);
    if TagsDistinct(products) {
      forall id | id in r ensures NoDup(r[id].tags) {
        var tags := products[id].tags;
        if id in scope && t !in tags {
          forall i, j | 0 <= i < j < |tags + [t]| ensures (tags + [t])[i] != (tags + [t])[j] {
            if j == |tags| {
              assert (tags + [t])[i] == tags[i];
            }
          }
        }
      }
      forall id | id in scope && id in products ensures OccursOnce(t, r[id].tags) {
        NoDupOccursOnce(r[id].tags, t);
      }
    }
  }

  /** Adding the same tag to the same scope twice is the same as once. */
  lemma AddTagAllIdempotent(products: map<ProductId, Product>, scope: set<ProductId>, t: int)
    ensures AddTagAll(AddTagAll(products, scope, t), scope, t) == AddTagAll(products, scope, t)
  {
    var once := AddTagAll(products, scope, t);
    forall id | id in once ensures AddTagAll(once, scope, t)[id] == once[id] {
      if id in scope {
        assert t in once[id].tags;
      }
    }
  }

  /** After the pull step no product in scope carries the tag and it keeps its other tags in their
      order; products outside the scope are unchanged; no product gains a duplicate tag. */
  lemma PullTagAllSpec(products: map<ProductId, Product>, scope: set<ProductId>, t: int)
    ensures var r := PullTagAll(products, scope, t);
      && (forall id | id in scope && id in products ::
            (forall x :: x in r[id].tags <==> x in products[id].tags && x != t)
            && r[id] == products[id].(tags := r[id].tags))
      && (forall id | id in products && id !in scope :: r[id] == products[id])
      && (TagsDistinct(products) ==> TagsDistinct(r))
  {
    var r := PullTagAll(products, scope, t);
    forall id | id in scope && id in products ensures forall x :: x in r[id].tags <==> x in products[id].tags && x != t {
      FilterMembers(products[id].tags, (x: int) => x != t);
    }
    if TagsDistinct(products) {
      forall id | id in scope && id in products ensures NoDup(r[id].tags) {
        FilterNoDup(products[id].tags, (x: int) => x != t);
      }
    }
  }

  lemma {:induction false} FilterNoDup(s: seq<int>, p: int -> bool)
    requires NoDup(s)
    ensures NoDup(Filter(s, p))
  {
    if s != [] {
      var n := |s| - 1;
      assert NoDup(s[..n]);
      FilterNoDup(s[..n], p);
      var f := Filter(s[..n], p);
      if p(s[n]) {
        FilterMembers(s[..n], p);
        assert s[n] !in s[..n];
        forall i, j | 0 <= i < j < |f + [s[n]]| ensures (f + [s[n]])[i] != (f + [s[n]])[j] {
          if j == |f| {
            assert (f + [s[n]])[i] == f[i] && f[i] in f;
          }
        }
      }
    }
  }

  /** The tag changes of `updateCoupon`: the old coupon's tag pulled from its old scope, then the new
      tag added to the new scope. */
  function Retagged(products: map<ProductId, Product>, seller: SellerId, old_: Coupon, body: CouponBody)
    : map<ProductId, Product>
  {
    var pulled := PullTagAll(products, Scope(products, seller, old_.productType, old_.productChoose), TagOf(old_.kind));
    AddTagAll(pulled, Scope(pulled, seller, body.productType, body.productChoose), TagOf(body.kind))
  }

  /** After an update a product in the new scope carries the new tag; one in the old scope has lost
      the old tag unless the new one is the same; one in neither scope is unchanged; and a product's
      tags are exactly its old ones, the old tag removed over the old scope, the new one added over
      the new scope. */
  lemma RetaggedSpec(products: map<ProductId, Product>, seller: SellerId, old_: Coupon, body: CouponBody)
    ensures var r := Retagged(products, seller, old_, body);
      var before := Scope(products, seller, old_.productType, old_.productChoose);
      var after := Scope(products, seller, body.productType, body.productChoose);
      && r.Keys == products.Keys
      && (forall id | id in after :: TagOf(body.kind) in r[id].tags)
      && (forall id | id in before && id !in after :: TagOf(old_.kind) !in r[id].tags)
      && (TagOf(old_.kind) != TagOf(body.kind) ==> forall id | id in before :: TagOf(old_.kind) !in r[id].tags)
      && (forall id | id in products && id !in before && id !in after :: r[id] == products[id])
      && (forall id | id in products :: r[id] == products[id].(tags := r[id].tags))
      && (forall id, x | id in products ::
            x in r[id].tags <==> ((x in products[id].tags && !(id in before && x == TagOf(old_.kind)))
                                  || (id in after && x == TagOf(body.kind))))
      && (TagsDistinct(products) ==> TagsDistinct(r))
  {
    var before := Scope(products, seller, old_.productType, old_.productChoose);
    var pulled := PullTagAll(products, before, TagOf(old_.kind));
    PullTagAllSpec(products, before, TagOf(old_.kind));
    assert forall id | id in pulled :: pulled[id].sellerOwned == products[id].sellerOwned;
    assert Scope(pulled, seller, body.productType, body.productChoose)
        == Scope(products, seller, body.productType, body.productChoose);
    AddTagAllSpec(pulled, Scope(pulled, seller, body.productType, body.productChoose), TagOf(body.kind));
  }

  /** The pull does not look at other coupons: a product two discount coupons cover loses its tag
      when one of them is narrowed, although the other still covers it. */
  lemma RetaggedDropsSharedTag()
    ensures var p := Product("p", "s", [], 0, [1], [], [1]);
      var a := Coupon("a", "", 0, 10, 1, 0, 10, 2, ["p"], true, Some("s"));
      var b := Coupon("b", "", 0, 10, 1, 0, 10, 2, ["p"], true, Some("s"));
      var narrowed := CouponBody("", 0, 10, 1, 0, 10, 2, [], true);
      && "p" in b.productChoose
      && Retagged(map["p" := p], "s", a, narrowed)["p"].tags == []
  {
    var p := Product("p", "s", [], 0, [1], [], [1]);
    var a := Coupon("a", "", 0, 10, 1, 0, 10, 2, ["p"], true, Some("s"));
    var products := map["p" := p];
    assert Scope(products, "s", 2, ["p"]) == {"p"};
    assert Pull([1], 1) == [] by { assert [1][..0] == []; }
    assert Scope(PullTagAll(products, {"p"}, 1), "s", 2, []) == {};
  }

  /** A filter of the coupon list: the seller, optionally `isEnabled`, optionally a bound on `endDate`. */
  datatype DateBound = Before(t: int) | NotBefore(t: int)
  datatype CouponQuery = CouponQuery(seller: SellerId, isEnabled: Option<bool>, endDate: Option<DateBound>)

  predicate Matches(q: CouponQuery, c: Coupon)
  {
    && c.seller == Some(q.seller)
    && (q.isEnabled.Some? ==> c.isEnabled == q.isEnabled.value)
    && (match q.endDate
        case None => true
        case Some(Before(t)) => c.endDate < t
        case Some(NotBefore(t)) => c.endDate >= t)
  }

  /** How `getCoupons` reads its query parameters: `disabled=true` lists disabled coupons and
      `disabled=false` enabled ones, `invalid=true` expired ones and `invalid=false` current ones;
      any other value, or none, adds no condition. */
  predicate Listed(seller: SellerId, disabled: Option<string>, invalid: Option<string>, now: int, c: Coupon)
  {
    && c.seller == Some(seller)
    && (disabled == Some("true") ==> !c.isEnabled)
    && (disabled == Some("false") ==> c.isEnabled)
    && (invalid == Some("true") ==> c.endDate < now)
    && (invalid == Some("false") ==> c.endDate >= now)
  }

  /** The query object `getCoupons` builds step by step from its parameters. */
  method CouponListQuery(seller: SellerId, disabled: Option<string>, invalid: Option<string>, now: int)
    returns (q: CouponQuery)
    ensures forall c :: Matches(q, c) <==> Listed(seller, disabled, invalid, now, c)
    ensures q.isEnabled.None? <==> disabled != Some("true") && disabled != Some("false")
    ensures q.endDate.None? <==> invalid != Some("true") && invalid != Some("false")
  {
    q := CouponQuery(seller, None, None);
    if disabled == Some("true") {
      q := q.(isEnabled := Some(false));
    } else if disabled == Some("false") {
      q := q.(isEnabled := Some(true));
    }
    if invalid == Some("true") {
      q := q.(endDate := Some(Before(now)));
    } else if invalid == Some("false") {
      q := q.(endDate := Some(NotBefore(now)));
    }
  }

  function ListedBy(seller: SellerId, disabled: Option<string>, invalid: Option<string>, now: int): Coupon -> bool
  {
    (c: Coupon) => Listed(seller, disabled, invalid, now, c)
  }

  function SellersCoupon(seller: SellerId): Coupon -> bool
  {
    (c: Coupon) => c.seller == Some(seller)
  }

  /** The answer of `getCoupons`: the page of the coupons the parameters select, with the page count
      taken from all the seller's coupons; a negative skip answers 500. */
  function CouponList(coupons: seq<Coupon>, seller: SellerId, disabled: Option<string>, invalid: Option<string>,
                      now: int, page: Option<int>, qty: Option<int>): Result<(seq<Coupon>, Pagination)>
  {
    Listing(Filter(coupons, ListedBy(seller, disabled, invalid, now)), |Filter(coupons, SellersCoupon(seller))|,
            PageOf(page), QtyOf(qty), ServerError)
  }

  /** `getCoupons`: build the query, then list the matching coupons. */
  method GetCoupons(coupons: seq<Coupon>, seller: SellerId, disabled: Option<string>, invalid: Option<string>,
                    now: int, page: Option<int>, qty: Option<int>) returns (r: Result<(seq<Coupon>, Pagination)>)
    ensures r == CouponList(coupons, seller, disabled, invalid, now, page, qty)
  {
    var q := CouponListQuery(seller, disabled, invalid, now);
    var matching := Filter(coupons, (c: Coupon) => Matches(q, c));
    FilterSame(coupons, (c: Coupon) => Matches(q, c), ListedBy(seller, disabled, invalid, now));
    var total := |Filter(coupons, SellersCoupon(seller))|;
    r := Listing(matching, total, PageOf(page), QtyOf(qty), ServerError);
  }

  /** Every listed coupon is the seller's and meets the disabled and invalid conditions; the page
      count does not depend on those conditions. */
  lemma CouponListSpec(coupons: seq<Coupon>, seller: SellerId, disabled: Option<string>, invalid: Option<string>,
                       now: int, page: Option<int>, qty: Option<int>)
    ensures var r := CouponList(coupons, seller, disabled, invalid, now, page, qty);
      && (r.Ok? ==> forall c | c in r.value.0 :: c in coupons && Listed(seller, disabled, invalid, now, c))
      && (r.Ok? <==> CouponList(coupons, seller, None, None, now, page, qty).Ok?)
      && (r.Ok? ==> r.value.1 == CouponList(coupons, seller, None, None, now, page, qty).value.1)
  {
    FilterMembers(coupons, ListedBy(seller, disabled, invalid, now));
  }

  function IsSellersCoupon(id: CouponId, seller: SellerId): Coupon -> bool
  {
    (c: Coupon) => c.id == id && c.seller == Some(seller)
  }

  /** The products and coupons collections a seller's coupon handlers change. */
  class Shop {
    var products: map<ProductId, Product>
    var coupons: seq<Coupon>

    constructor (products: map<ProductId, Product>, coupons: seq<Coupon>)
      ensures this.products == products && this.coupons == coupons
    {
      this.products := products;
      this.coupons := coupons;
    }

    /** `createCoupon`: 400 when the start date is after the end date; otherwise the coupon is stored
        and its tag added to the products in its scope. */
    method CreateCoupon(seller: SellerId, body: CouponBody, newId: CouponId) returns (r: Result<Coupon>)
      modifies this
      ensures !DatesValid(body) ==> r == Err(BadRequest) && unchanged(this)
      ensures DatesValid(body) ==>
        && r == Ok(CouponOf(newId, seller, body))
        && coupons == old(coupons) + [r.value]
        && products == AddTagAll(old(products), Scope(old(products), seller, body.productType, body.productChoose),
                                 TagOf(body.kind))
    {
      if !DatesValid(body) {
        return Err(BadRequest);
      }
      var coupon := CouponOf(newId, seller, body);
      coupons := coupons + [coupon];
      if body.productType == 1 || body.productType == 2 {
        var scope := Scope(products, seller, body.productType, body.productChoose);
        products := AddTagAll(products, scope, TagOf(body.kind));
      } else {
        assert AddTagAll(products, {}, TagOf(body.kind)) == products;
      }
      r := Ok(coupon);
    }

    /** `updateCoupon`: 400 when the start date is after the end date, 404 when the seller has no such
        coupon; otherwise the old tag is pulled from the old scope, the coupon overwritten, and the
        new tag added to the new scope. */
    method UpdateCoupon(seller: SellerId, couponId: CouponId, body: CouponBody) returns (r: Result<Coupon>)
      modifies this
      ensures !DatesValid(body) ==> r == Err(BadRequest) && unchanged(this)
      ensures DatesValid(body) && FindFirst(old(coupons), IsSellersCoupon(couponId, seller)).None? ==>
        r == Err(NotFound) && unchanged(this)
      ensures DatesValid(body) && FindFirst(old(coupons), IsSellersCoupon(couponId, seller)).Some? ==>
        var i := FindFirst(old(coupons), IsSellersCoupon(couponId, seller)).value;
        && r == Ok(CouponOf(couponId, seller, body))
        && coupons == old(coupons)[i := r.value]
        && products == Retagged(old(products), seller, old(coupons)[i], body)
    {
      if !DatesValid(body) {
        return Err(BadRequest);
      }
      var hit := FindFirst(coupons, IsSellersCoupon(couponId, seller));
      if hit.None? {
        return Err(NotFound);
      }
      var existing := coupons[hit.value];
      var oldScope := Scope(products, seller, existing.productType, existing.productChoose);
      products := PullTagAll(products, oldScope, TagOf(existing.kind));
      var updated := CouponOf(couponId, seller, body);
      coupons := coupons[hit.value := updated];
      var newScope := Scope(products, seller, body.productType, body.productChoose);
      products := AddTagAll(products, newScope, TagOf(body.kind));
      r := Ok(updated);
    }
  }
}

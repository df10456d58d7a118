/**
 * The cart handlers of controllers/user/cartControllers.js. A user's cart
 * is a `Cart` object whose lines the handlers change in place and whose
 * total they recompute from the lines after every change. The product
 * collection is a map from id to product document (models/cart.js is not
 * part of this model; the fields used here are those the handlers read).
 */
module CartController {
  import opened Common
  import opened Models

  /** One entry of a request's `selectedItems`: `{ productId, formatId }`. */
  datatype Selection = Selection(productId: ProductId, formatId: FormatId)

  /** The test every handler uses to find a line: same product, same format id. */
  predicate IsLine(productId: ProductId, formatId: FormatId, line: CartItem)
  {
    line.product == productId && line.format.id == formatId
  }

  function LineOf(productId: ProductId, formatId: FormatId): CartItem -> bool
  {
    (line: CartItem) => IsLine(productId, formatId, line)
  }

  /** No two lines hold the same format of the same product. */
  predicate DistinctLines(items: seq<CartItem>)
  {
    forall i, j | 0 <= i < j < |items| :: !IsLine(items[i].product, items[i].format.id, items[j])
  }

  /** Two line lists name the same (product, format) at every position. */
  predicate SameKeys(a: seq<CartItem>, b: seq<CartItem>)
  {
    |a| == |b| && forall k | 0 <= k < |a| :: a[k].product == b[k].product && a[k].format.id == b[k].format.id
  }

  lemma SameKeysDistinct(a: seq<CartItem>, b: seq<CartItem>)
    requires SameKeys(a, b) && DistinctLines(a)
    ensures DistinctLines(b)
  {
    forall i, j | 0 <= i < j < |b| ensures !IsLine(b[i].product, b[i].format.id, b[j]) {
      assert !IsLine(a[i].product, a[i].format.id, a[j]);
    }
  }

  function HasFormatId(formatId: FormatId): Format -> bool
  {
    (f: Format) => f.id == formatId
  }

  /** `product.format.id(formatId)`: the product's format with that id, if any. */
  function FindFormat(product: Product, formatId: FormatId): (r: Option<Format>)
    ensures r.Some? ==> r.value in product.format && r.value.id == formatId
    ensures r.None? ==> forall k | 0 <= k < |product.format| :: product.format[k].id != formatId
  {
    match FindFirst(product.format, HasFormatId(formatId))
    case None => None
    case Some(k) => Some(product.format[k])
  }

  // ---- the line-list operations, as functions ----

  /** The lines after adding `quantity` of `format`: the first line of that product and format
      gets the quantity added and is repriced at the format's current price; without one, a new
      line is appended. */
  function Added(items: seq<CartItem>, productId: ProductId, format: Format, quantity: int): seq<CartItem>
  {
    match FindFirst(items, LineOf(productId, format.id))
    case Some(i) =>
      var q := items[i].quantity + quantity;
      items[i := items[i].(quantity := q, price := q * format.price)]
    case None => items + [CartItem(productId, format, quantity, quantity * format.price)]
  }

  /** The lines after setting the quantity of a line, repriced at the format price stored in the line;
      None when the cart has no such line. */
  function Updated(items: seq<CartItem>, productId: ProductId, formatId: FormatId, quantity: int)
    : Option<seq<CartItem>>
  {
    match FindFirst(items, LineOf(productId, formatId))
    case None => None
    case Some(i) => Some(items[i := items[i].(quantity := quantity, price := quantity * items[i].format.price)])
  }

  /** The lines after `splice(findIndex(...), 1)`; None when `findIndex` gives -1. */
  function Removed(items: seq<CartItem>, productId: ProductId, formatId: FormatId): Option<seq<CartItem>>
  {
    match FindFirst(items, LineOf(productId, formatId))
    case None => None
    case Some(i) => Some(items[..i] + items[i + 1..])
  }

  /** Adding to an existing line changes that line only: the quantity grows by the amount added,
      the price is the new quantity at the format price, and no line is appended. */
  lemma AddMerges(items: seq<CartItem>, productId: ProductId, format: Format, quantity: int, i: nat)
    requires i < |items| && IsLine(productId, format.id, items[i])
    requires forall j | 0 <= j < i :: !IsLine(productId, format.id, items[j])
    ensures var after := Added(items, productId, format, quantity);
      && |after| == |items|
      && after[i].quantity == items[i].quantity + quantity
      && after[i].price == (items[i].quantity + quantity) * format.price
      && after[i].product == items[i].product && after[i].format == items[i].format
      && forall j | 0 <= j < |items| && j != i :: after[j] == items[j]
  {
    assert LineOf(productId, format.id)(items[i]);
  }

  /** Adding a format the cart does not hold appends exactly one line and keeps the others. */
  lemma AddAppends(items: seq<CartItem>, productId: ProductId, format: Format, quantity: int)
    requires forall j | 0 <= j < |items| :: !IsLine(productId, format.id, items[j])
    ensures Added(items, productId, format, quantity)
         == items + [CartItem(productId, format, quantity, quantity * format.price)]
  {
    assert forall j | 0 <= j < |items| :: !LineOf(productId, format.id)(items[j]);
  }

  /** The total after adding: one line's price replaced, or one line's price added. */
  lemma AddedTotal(items: seq<CartItem>, productId: ProductId, format: Format, quantity: int)
    ensures match FindFirst(items, LineOf(productId, format.id))
      case Some(i) => LinesTotal(Added(items, productId, format, quantity))
                      == LinesTotal(items) - items[i].price + (items[i].quantity + quantity) * format.price
      case None => LinesTotal(Added(items, productId, format, quantity))
                   == LinesTotal(items) + quantity * format.price
  {
    match FindFirst(items, LineOf(productId, format.id)) {
      case Some(i) =>
        var q := items[i].quantity + quantity;
        LinesTotalUpdate(items, i, items[i].(quantity := q, price := q * format.price));
      case None =>
        var line := CartItem(productId, format, quantity, quantity * format.price);
        LinesTotalAppend(items, [line]);
        assert LinesTotal([line]) == line.price by { assert [line][..0] == []; }
    }
  }

  /** Adding never produces a second line for a (product, format) the cart already holds. */
  lemma AddKeepsDistinct(items: seq<CartItem>, productId: ProductId, format: Format, quantity: int)
    requires DistinctLines(items)
    ensures DistinctLines(Added(items, productId, format, quantity))
  {
    var after := Added(items, productId, format, quantity);
    match FindFirst(items, LineOf(productId, format.id)) {
      case Some(i) =>
        assert SameKeys(items, after);
        SameKeysDistinct(items, after);
      case None =>
        forall i, j | 0 <= i < j < |after| ensures !IsLine(after[i].product, after[i].format.id, after[j]) {
          if j < |items| {
            assert !IsLine(items[i].product, items[i].format.id, items[j]);
          } else {
            assert !LineOf(productId, format.id)(items[i]);
          }
        }
    }
  }

  /** Updating succeeds exactly when the cart has the line; it sets that line's quantity, prices it at
      the line's own format price and leaves every other line as it was. */
  lemma UpdatedSpec(items: seq<CartItem>, productId: ProductId, formatId: FormatId, quantity: int)
    ensures Updated(items, productId, formatId, quantity).None?
        <==> forall j | 0 <= j < |items| :: !IsLine(productId, formatId, items[j])
    ensures match FindFirst(items, LineOf(productId, formatId))
      case None => true
      case Some(i) =>
        var after := Updated(items, productId, formatId, quantity).value;
        && |after| == |items|
        && after[i] == items[i].(quantity := quantity, price := quantity * items[i].format.price)
        && (forall j | 0 <= j < |items| && j != i :: after[j] == items[j])
        && LinesTotal(after) == LinesTotal(items) - items[i].price + quantity * items[i].format.price
  {
    match FindFirst(items, LineOf(productId, formatId)) {
      case None =>
      case Some(i) =>
        assert IsLine(productId, formatId, items[i]);
        LinesTotalUpdate(items, i, items[i].(quantity := quantity, price := quantity * items[i].format.price));
    }
  }

  /** Setting the same quantity twice gives the cart that setting it once gives. */
  lemma UpdatedIdempotent(items: seq<CartItem>, productId: ProductId, formatId: FormatId, quantity: int)
    requires Updated(items, productId, formatId, quantity).Some?
    ensures Updated(Updated(items, productId, formatId, quantity).value, productId, formatId, quantity)
         == Updated(items, productId, formatId, quantity)
  {
    var i := FindFirst(items, LineOf(productId, formatId)).value;
    var once := Updated(items, productId, formatId, quantity).value;
    assert LineOf(productId, formatId)(once[i]);
    assert forall j | 0 <= j < i :: once[j] == items[j];
    assert FindFirst(once, LineOf(productId, formatId)) == Some(i);
    assert once[i := once[i].(quantity := quantity, price := quantity * once[i].format.price)] == once;
  }

  lemma UpdateKeepsDistinct(items: seq<CartItem>, productId: ProductId, formatId: FormatId, quantity: int)
    requires DistinctLines(items) && Updated(items, productId, formatId, quantity).Some?
    ensures DistinctLines(Updated(items, productId, formatId, quantity).value)
  {
    var after := Updated(items, productId, formatId, quantity).value;
    assert SameKeys(items, after);
    SameKeysDistinct(items, after);
  }

  /** Deleting removes exactly one line, the first match, and keeps the others in their order. */
  lemma RemovedSpec(items: seq<CartItem>, productId: ProductId, formatId: FormatId)
    ensures Removed(items, productId, formatId).None?
        <==> forall j | 0 <= j < |items| :: !IsLine(productId, formatId, items[j])
    ensures match FindFirst(items, LineOf(productId, formatId))
      case None => true
      case Some(i) =>
        var after := Removed(items, productId, formatId).value;
        && |after| == |items| - 1
        && (forall j | 0 <= j < i :: after[j] == items[j])
        && (forall j | i < j < |items| :: after[j - 1] == items[j])
  {
    match FindFirst(items, LineOf(productId, formatId)) {
      case None =>
      case Some(i) =>
        assert IsLine(productId, formatId, items[i]);
    }
  }

  /** Deleting takes exactly the removed line out of the cart's contents and its price out of the total. */
  lemma RemovedTotal(items: seq<CartItem>, productId: ProductId, formatId: FormatId)
    requires Removed(items, productId, formatId).Some?
    ensures var i := FindFirst(items, LineOf(productId, formatId)).value;
      var after := Removed(items, productId, formatId).value;
      && multiset(after) == multiset(items) - multiset{items[i]}
      && LinesTotal(after) == LinesTotal(items) - items[i].price
  {
    var i := FindFirst(items, LineOf(productId, formatId)).value;
    assert items == items[..i] + [items[i]] + items[i + 1..];
    assert multiset(items) == multiset(items[..i]) + multiset{items[i]} + multiset(items[i + 1..]);
    LinesTotalRemove(items, i);
  }

  /** In a cart without duplicate lines nothing matches after a delete, so deleting the same
      line again fails. */
  lemma RemovedTwice(items: seq<CartItem>, productId: ProductId, formatId: FormatId)
    requires DistinctLines(items) && Removed(items, productId, formatId).Some?
    ensures Removed(Removed(items, productId, formatId).value, productId, formatId).None?
  {
    var i := FindFirst(items, LineOf(productId, formatId)).value;
    var after := Removed(items, productId, formatId).value;
    assert IsLine(productId, formatId, items[i]);
    forall j | 0 <= j < |after| ensures !LineOf(productId, formatId)(after[j]) {
      if j < i {
        assert after[j] == items[j];
      } else {
        assert after[j] == items[j + 1];
        assert !IsLine(items[i].product, items[i].format.id, items[j + 1]);
      }
    }
  }

  lemma RemoveKeepsDistinct(items: seq<CartItem>, productId: ProductId, formatId: FormatId)
    requires DistinctLines(items) && Removed(items, productId, formatId).Some?
    ensures DistinctLines(Removed(items, productId, formatId).value)
  {
    var i := FindFirst(items, LineOf(productId, formatId)).value;
    var after := Removed(items, productId, formatId).value;
    forall a, b | 0 <= a < b < |after| ensures !IsLine(after[a].product, after[a].format.id, after[b]) {
      var a', b' := if a < i then a else a + 1, if b < i then b else b + 1;
      assert after[a] == items[a'] && after[b] == items[b'];
      assert !IsLine(items[a'].product, items[a'].format.id, items[b']);
    }
  }

  /** `items.reduce((total, item) => total + item.price, 0)` */
  method SumPrices(items: seq<CartItem>) returns (total: int)
    ensures total == LinesTotal(items)
  {
    total := 0;
    for i := 0 to |items|
      invariant total == LinesTotal(items[..i])
    {
      assert items[..i + 1][..i] == items[..i];
      total := total + items[i].price;
    }
    assert items[..|items|] == items;
  }

  /** A user's cart document. */
  class Cart {
    var user: UserId
    var items: seq<CartItem>
    var totalPrice: int

    /** The total is the sum of the line prices, as every handler leaves it. */
    predicate Valid()
      reads this
    {
      totalPrice == LinesTotal(items)
    }

    /** `new Cart({ user: userId, items: [], totalPrice: 0 })` */
    constructor (user: UserId)
      ensures this.user == user && items == [] && totalPrice == 0 && Valid()
    {
      this.user := user;
      items := [];
      totalPrice := 0;
    }

    /** Recomputes the total from the lines. */
    method Recount()
      modifies this
      ensures user == old(user) && items == old(items) && Valid()
    {
      totalPrice := SumPrices(items);
    }

    /** Merges into the matching line or appends one, then recomputes the total. */
    method Add(productId: ProductId, format: Format, quantity: int)
      modifies this
      ensures user == old(user) && items == Added(old(items), productId, format, quantity) && Valid()
    {
      var hit := FindFirst(items, LineOf(productId, format.id));
      if hit.Some? {
        var line := items[hit.value];
        var q := line.quantity + quantity;
        items := items[hit.value := line.(quantity := q, price := q * format.price)];
      } else {
        items := items + [CartItem(productId, format, quantity, quantity * format.price)];
      }
      Recount();
    }

    /** Sets the quantity of the matching line and recomputes the total; changes nothing when
        there is no such line. */
    method Update(productId: ProductId, formatId: FormatId, quantity: int) returns (found: bool)
      modifies this
      ensures found <==> Updated(old(items), productId, formatId, quantity).Some?
      ensures found ==> items == Updated(old(items), productId, formatId, quantity).value && Valid()
      ensures !found ==> unchanged(this)
      ensures user == old(user)
    {
      var hit := FindFirst(items, LineOf(productId, formatId));
      if hit.None? {
        return false;
      }
      var line := items[hit.value];
      items := items[hit.value := line.(quantity := quantity, price := quantity * line.format.price)];
      Recount();
      found := true;
    }

    /** Removes the matching line and recomputes the total; changes nothing when there is no such line. */
    method Remove(productId: ProductId, formatId: FormatId) returns (found: bool)
      modifies this
      ensures found <==> Removed(old(items), productId, formatId).Some?
      ensures found ==> items == Removed(old(items), productId, formatId).value && Valid()
      ensures !found ==> unchanged(this)
      ensures user == old(user)
    {
      var hit := FindFirst(items, LineOf(productId, formatId));
      if hit.None? {
        return false;
      }
      items := items[..hit.value] + items[hit.value + 1..];
      Recount();
      found := true;
    }

    /** Keeps only the lines the selection does not name, in their order, and recomputes the total. */
    method Prune(selection: seq<Selection>)
      modifies this
      ensures user == old(user) && items == Unselected(old(items), selection) && Valid()
    {
      items := Unselected(items, selection);
      Recount();
    }

    /** Empties the cart. */
    method Clear()
      modifies this
      ensures user == old(user) && items == [] && totalPrice == 0 && Valid()
    {
      items := [];
      totalPrice := 0;
    }
  }

  // ---- the handlers ----

  /** `addToCart`: 404 when the product or its format does not exist; otherwise the line is added
      to the user's cart, which is created first when the user has none. */
  method AddToCart(cart: Cart?, catalog: map<ProductId, Product>, userId: UserId,
                   productId: ProductId, formatId: FormatId, quantity: int) returns (r: Result<Cart>)
    modifies cart
    ensures productId !in catalog ==> r == Err(NotFound)
    ensures productId in catalog && FindFormat(catalog[productId], formatId).None? ==> r == Err(NotFound)
    ensures r.Err? && cart != null ==> unchanged(cart)
    ensures productId in catalog && FindFormat(catalog[productId], formatId).Some? ==>
      var format := FindFormat(catalog[productId], formatId).value;
      && r.Ok? && r.value.Valid()
      && (cart != null ==> r.value == cart && cart.user == old(cart.user)
                           && cart.items == Added(old(cart.items), productId, format, quantity))
      && (cart == null ==> fresh(r.value) && r.value.user == userId
                           && r.value.items == Added([], productId, format, quantity))
  {
    if productId !in catalog {
      return Err(NotFound);
    }
    var format := FindFormat(catalog[productId], formatId);
    if format.None? {
      return Err(NotFound);
    }
    var target := cart;
    if target == null {
      target := new Cart(userId);
    }
    target.Add(productId, format.value, quantity);
    r := Ok(target);
  }

  /** `updateCart`: 404 when the user has no cart or the cart has no such line; otherwise the
      updated lines. */
  method UpdateCart(cart: Cart?, productId: ProductId, formatId: FormatId, quantity: int)
    returns (r: Result<seq<CartItem>>)
    modifies cart
    ensures cart == null ==> r == Err(NotFound)
    ensures cart != null ==>
      var after := Updated(old(cart.items), productId, formatId, quantity);
      && (after.None? ==> r == Err(NotFound) && unchanged(cart))
      && (after.Some? ==> r == Ok(after.value) && cart.items == after.value && cart.Valid()
                          && cart.user == old(cart.user))
  {
    if cart == null {
      return Err(NotFound);
    }
    var found := cart.Update(productId, formatId, quantity);
    if !found {
      return Err(NotFound);
    }
    r := Ok(cart.items);
  }

  /** `deleteCart`: 404 when the user has no cart or the cart has no such line; otherwise the
      remaining lines. */
  method DeleteCart(cart: Cart?, productId: ProductId, formatId: FormatId) returns (r: Result<seq<CartItem>>)
    modifies cart
    ensures cart == null ==> r == Err(NotFound)
    ensures cart != null ==>
      var after := Removed(old(cart.items), productId, formatId);
      && (after.None? ==> r == Err(NotFound) && unchanged(cart))
      && (after.Some? ==> r == Ok(after.value) && cart.items == after.value && cart.Valid()
                          && cart.user == old(cart.user))
  {
    if cart == null {
      return Err(NotFound);
    }
    var found := cart.Remove(productId, formatId);
    if !found {
      return Err(NotFound);
    }
    r := Ok(cart.items);
  }

  /** `deleteCartAll`: 404 when the user has no cart; otherwise no lines and a total of 0. */
  method DeleteCartAll(cart: Cart?) returns (r: Result<seq<CartItem>>)
    modifies cart
    ensures cart == null ==> r == Err(NotFound)
    ensures cart != null ==> r == Ok([]) && cart.items == [] && cart.totalPrice == 0 && cart.user == old(cart.user)
  {
    if cart == null {
      return Err(NotFound);
    }
    cart.Clear();
    r := Ok([]);
  }

  // ---- chooseSelectedCart ----

  /** Some entry of the selection names this line's product and format. */
  predicate Picks(selection: seq<Selection>, line: CartItem)
  {
    exists k | 0 <= k < |selection| :: IsLine(selection[k].productId, selection[k].formatId, line)
  }

  /** The lines the selection names, in cart order. */
  function Selected(items: seq<CartItem>, selection: seq<Selection>): (r: seq<CartItem>)
    ensures forall line | line in r :: line in items && Picks(selection, line)
  {
    FilterMembers(items, (line: CartItem) => Picks(selection, line));
    Filter(items, (line: CartItem) => Picks(selection, line))
  }

  /** The lines the selection does not name, in cart order. */
  function Unselected(items: seq<CartItem>, selection: seq<Selection>): seq<CartItem>
  {
    Filter(items, (line: CartItem) => !Picks(selection, line))
  }

  /** Selected and unselected lines split the cart: each line is in exactly one of them, and their
      totals add up to the cart's total. */
  lemma {:induction false} SelectionSplitsCart(items: seq<CartItem>, selection: seq<Selection>)
    ensures forall line :: line in Selected(items, selection) <==> line in items && Picks(selection, line)
    ensures forall line :: line in Unselected(items, selection) <==> line in items && !Picks(selection, line)
    ensures |Selected(items, selection)| + |Unselected(items, selection)| == |items|
    ensures LinesTotal(Selected(items, selection)) + LinesTotal(Unselected(items, selection)) == LinesTotal(items)
  {
    FilterMembers(items, (line: CartItem) => Picks(selection, line));
    FilterMembers(items, (line: CartItem) => !Picks(selection, line));
    if items != [] {
      var n := |items| - 1;
      var line := items[n];
      SelectionSplitsCart(items[..n], selection);
      assert items[..n] + [line] == items;
      var s, u := Selected(items[..n], selection), Unselected(items[..n], selection);
      if Picks(selection, line) {
        assert Selected(items, selection) == s + [line];
        assert Unselected(items, selection) == u;
        LinesTotalAppend(s, [line]);
      } else {
        assert Selected(items, selection) == s;
        assert Unselected(items, selection) == u + [line];
        LinesTotalAppend(u, [line]);
      }
      assert LinesTotal([line]) == line.price by { assert [line][..0] == []; }
      LinesTotalAppend(items[..n], [line]);
    }
  }

  /** A cart line with its product document filled in, as `populate('items.product')` gives it. */
  datatype Populated = Populated(line: CartItem, product: Product)

  function Populate(lines: seq<CartItem>, catalog: map<ProductId, Product>): (r: seq<Populated>)
    requires forall line | line in lines :: line.product in catalog
    ensures |r| == |lines|
    ensures forall k | 0 <= k < |lines| :: r[k].line == lines[k] && r[k].product == catalog[lines[k].product]
  {
    seq(|lines|, k requires 0 <= k < |lines| => Populated(lines[k], catalog[lines[k].product]))
  }

  function SellerOf(p: Populated): SellerId
  {
    p.product.sellerOwned
  }

  /** One entry of `Object.values(groupedItems)`. */
  datatype SellerGroup = SellerGroup(seller: SellerId, items: seq<Populated>)

  function HasSeller(seller: SellerId): SellerGroup -> bool
  {
    (g: SellerGroup) => g.seller == seller
  }

  /** One step of the grouping `reduce`: the line joins its seller's group, or opens a new group
      at the end (a new key of the accumulator object). */
  function Insert(groups: seq<SellerGroup>, p: Populated): seq<SellerGroup>
  {
    match FindFirst(groups, HasSeller(SellerOf(p)))
    case None => groups + [SellerGroup(SellerOf(p), [p])]
    case Some(g) => groups[g := groups[g].(items := groups[g].items + [p])]
  }

  function Grouped(lines: seq<Populated>): seq<SellerGroup>
  {
    if lines == [] then [] else Insert(Grouped(lines[..|lines| - 1]), lines[|lines| - 1])
  }

  /** The lines of one seller, in order. */
  function OfSeller(lines: seq<Populated>, seller: SellerId): seq<Populated>
  {
    if lines == [] then []
    else OfSeller(lines[..|lines| - 1], seller)
         + (if SellerOf(lines[|lines| - 1]) == seller then [lines[|lines| - 1]] else [])
  }

  lemma {:induction false} OfSellerEmpty(lines: seq<Populated>, seller: SellerId)
    requires forall k | 0 <= k < |lines| :: SellerOf(lines[k]) != seller
    ensures OfSeller(lines, seller) == []
  {
    if lines != [] {
      OfSellerEmpty(lines[..|lines| - 1], seller);
    }
  }

  lemma {:induction false} OfSellerMembers(lines: seq<Populated>, seller: SellerId)
    ensures forall p :: p in OfSeller(lines, seller) <==> p in lines && SellerOf(p) == seller
  {
    if lines != [] {
      var n := |lines| - 1;
      OfSellerMembers(lines[..n], seller);
      assert lines == lines[..n] + [lines[n]];
    }
  }

  /** The groups have distinct sellers; each group holds exactly its seller's lines, in order;
      and every line's seller has a group. */
  lemma {:induction false} GroupedSpec(lines: seq<Populated>)
    ensures var gs := Grouped(lines);
      && (forall i, j | 0 <= i < j < |gs| :: gs[i].seller != gs[j].seller)
      && (forall g | 0 <= g < |gs| :: gs[g].items == OfSeller(lines, gs[g].seller))
      && (forall k | 0 <= k < |lines| :: exists g :: 0 <= g < |gs| && gs[g].seller == SellerOf(lines[k]))
  {
    if lines != [] {
      var n := |lines| - 1;
      var pre, p := lines[..n], lines[n];
      GroupedSpec(pre);
      var before := Grouped(pre);
      var gs := Grouped(lines);
      assert gs == Insert(before, p);
      assert forall k | 0 <= k < n :: lines[k] == pre[k];
      match FindFirst(before, HasSeller(SellerOf(p))) {
        case None =>
          assert gs == before + [SellerGroup(SellerOf(p), [p])];
          forall k | 0 <= k < n ensures SellerOf(pre[k]) != SellerOf(p) {
            var g :| 0 <= g < |before| && before[g].seller == SellerOf(pre[k]);
            assert !HasSeller(SellerOf(p))(before[g]);
          }
          OfSellerEmpty(pre, SellerOf(p));
          forall i, j | 0 <= i < j < |gs| ensures gs[i].seller != gs[j].seller {
            if j == |before| {
              assert !HasSeller(SellerOf(p))(before[i]);
            }
          }
          forall k | 0 <= k < |lines| ensures exists g :: 0 <= g < |gs| && gs[g].seller == SellerOf(lines[k]) {
            if k == n {
              assert gs[|before|].seller == SellerOf(lines[k]);
            } else {
              var g :| 0 <= g < |before| && before[g].seller == SellerOf(pre[k]);
              assert gs[g] == before[g];
            }
          }
        case Some(h) =>
          assert |gs| == |before|;
          forall g | 0 <= g < |gs| ensures gs[g].items == OfSeller(lines, gs[g].seller) {
            if g != h {
              assert gs[g] == before[g];
              assert before[g].seller != before[h].seller;
            }
          }
          forall k | 0 <= k < |lines| ensures exists g :: 0 <= g < |gs| && gs[g].seller == SellerOf(lines[k]) {
            if k == n {
              assert gs[h].seller == SellerOf(lines[k]);
            } else {
              var g :| 0 <= g < |before| && before[g].seller == SellerOf(pre[k]);
              assert gs[g].seller == before[g].seller;
            }
          }
      }
    }
  }

  /** Each selected line lands in exactly one group: the one of its seller. */
  lemma LineInOneGroup(lines: seq<Populated>, k: nat)
    requires k < |lines|
    ensures var gs := Grouped(lines);
      && (exists g :: 0 <= g < |gs| && gs[g].seller == SellerOf(lines[k]))
      && (forall g | 0 <= g < |gs| :: lines[k] in gs[g].items <==> gs[g].seller == SellerOf(lines[k]))
  {
    GroupedSpec(lines);
    var gs := Grouped(lines);
    forall g | 0 <= g < |gs| ensures lines[k] in gs[g].items <==> gs[g].seller == SellerOf(lines[k]) {
      OfSellerMembers(lines, gs[g].seller);
    }
  }

  /** The grouping `reduce` over the selected lines. */
  method GroupBySeller(lines: seq<Populated>) returns (groups: seq<SellerGroup>)
    ensures groups == Grouped(lines)
  {
    groups := [];
    for i := 0 to |lines|
      invariant groups == Grouped(lines[..i])
    {
      assert lines[..i + 1][..i] == lines[..i];
      var p := lines[i];
      var hit := FindFirst(groups, HasSeller(SellerOf(p)));
      if hit.None? {
        groups := groups + [SellerGroup(SellerOf(p), [p])];
      } else {
        var g := hit.value;
        groups := groups[g := groups[g].(items := groups[g].items + [p])];
      }
    }
    assert lines[..|lines|] == lines;
  }

  /** The payment methods offered when nothing restricts them: 1 card, 2 ATM transfer, 3 pay at pickup. */
  const DefaultPayMethods: seq<int> := [1, 2, 3]

  predicate AcceptedByAll(m: int, lines: seq<Populated>)
  {
    forall k | 0 <= k < |lines| :: m in lines[k].product.pay
  }

  /** The methods of `methods`, in order, that every line's product accepts. */
  function CommonPay(methods: seq<int>, lines: seq<Populated>): seq<int>
  {
    Filter(methods, (m: int) => AcceptedByAll(m, lines))
  }

  /** A method is kept exactly when it is one of `methods` and every product accepts it. */
  lemma CommonPayMembers(methods: seq<int>, lines: seq<Populated>)
    ensures forall m :: m in CommonPay(methods, lines) <==> m in methods && AcceptedByAll(m, lines)
  {
    FilterMembers(methods, (m: int) => AcceptedByAll(m, lines));
  }

  /** `for (const item of filteredItems) payMethods = payMethods.filter(m => item.product.pay.includes(m))` */
  method CommonPayMethods(lines: seq<Populated>) returns (methods: seq<int>)
    ensures methods == CommonPay(DefaultPayMethods, lines)
  {
    methods := DefaultPayMethods;
    assert methods == CommonPay(DefaultPayMethods, lines[..0]) by {
      FilterBoth(DefaultPayMethods, (m: int) => true, (m: int) => true, (m: int) => AcceptedByAll(m, lines[..0]));
      FilterBoth(DefaultPayMethods, (m: int) => true, (m: int) => AcceptedByAll(m, lines[..0]), (m: int) => AcceptedByAll(m, lines[..0]));
      IdentityFilter(DefaultPayMethods, (m: int) => true);
    }
    for i := 0 to |lines|
      invariant methods == CommonPay(DefaultPayMethods, lines[..i])
    {
      var pay := lines[i].product.pay;
      FilterBoth(DefaultPayMethods, (m: int) => AcceptedByAll(m, lines[..i]), (m: int) => m in pay,
                 (m: int) => AcceptedByAll(m, lines[..i + 1]));
      methods := Filter(methods, (m: int) => m in pay);
    }
    assert lines[..|lines|] == lines;
  }

  /** `Math.max(...xs)` of a non-empty list: at least every element, and one of them. */
  function MaxOf(xs: seq<int>): (r: int)
    requires |xs| > 0
    ensures forall k | 0 <= k < |xs| :: xs[k] <= r
    ensures r in xs
  {
    if |xs| == 1 then xs[0]
    else
      var rest := MaxOf(xs[1..]);
      if xs[0] >= rest then xs[0] else rest
  }

  function Fares(lines: seq<Populated>): (r: seq<int>)
    ensures |r| == |lines|
  {
    seq(|lines|, k requires 0 <= k < |lines| => lines[k].product.fare)
  }

  /** The summary `chooseSelectedCart` answers with. */
  datatype Choice = Choice(groups: seq<SellerGroup>, payMethods: seq<int>, fare: int, totalPrice: int)

  /** The total as the handler writes it: every line price, which already is quantity times the
      unit price, multiplied by the quantity once more. */
  function SelectedTotalAsWritten(lines: seq<CartItem>): int
  {
    if lines == [] then 0
    else SelectedTotalAsWritten(lines[..|lines| - 1]) + lines[|lines| - 1].price * lines[|lines| - 1].quantity
  }

  /** One line of 2 at 10: the cart charges 20, the summary as written reports 40. */
  lemma SelectedTotalDoubleCounts()
    ensures var line := CartItem("p", Format("f", "", 10, None), 2, 20);
      && line.price == line.quantity * line.format.price
      && LinesTotal([line]) == 20
      && SelectedTotalAsWritten([line]) == 40
  {
    var line := CartItem("p", Format("f", "", 10, None), 2, 20);
    assert [line][..0] == [];
  }

  /** `chooseSelectedCart`: 400 when `selectedItems` is missing or not an array, 404 when the user
      has no cart, 500 when a cart line's product no longer exists (reading it throws), 400 when no
      cart line is selected; otherwise the selected lines grouped by seller, the payment methods
      all of them accept, the highest fare and the sum of the line prices. */
  method ChooseSelectedCart(cart: Cart?, catalog: map<ProductId, Product>, selection: Option<seq<Selection>>)
    returns (r: Result<Choice>)
    ensures selection.None? ==> r == Err(BadRequest)
    ensures selection.Some? && cart == null ==> r == Err(NotFound)
    ensures selection.Some? && cart != null && selection.value == [] ==> r == Err(BadRequest)
    ensures (selection.Some? && cart != null && selection.value != []
             && exists line | line in cart.items :: line.product !in catalog) ==> r == Err(ServerError)
    ensures selection.Some? && cart != null && (forall line | line in cart.items :: line.product in catalog) ==>
      var chosen := Selected(cart.items, selection.value);
      && (chosen == [] ==> r == Err(BadRequest))
      && (chosen != [] ==>
            var lines := Populate(chosen, catalog);
            r == Ok(Choice(Grouped(lines), CommonPay(DefaultPayMethods, lines), MaxOf(Fares(lines)), LinesTotal(chosen))))
  {
    if selection.None? {
      return Err(BadRequest);
    }
    if cart == null {
      return Err(NotFound);
    }
    var sel := selection.value;
    if sel != [] && exists line | line in cart.items :: line.product !in catalog {
      return Err(ServerError);
    }
    var chosen := Selected(cart.items, sel);
    if sel == [] {
      NoneFiltered(cart.items, (line: CartItem) => Picks(sel, line));
    }
    if chosen == [] {
      return Err(BadRequest);
    }
    var lines := Populate(chosen, catalog);
    var groups := GroupBySeller(lines);
    var payMethods := CommonPayMethods(lines);
    var total := SumPrices(chosen);
    r := Ok(Choice(groups, payMethods, MaxOf(Fares(lines)), total));
  }

  // ---- validateCoupon ----

  function HasCouponId(id: CouponId): Coupon -> bool
  {
    (c: Coupon) => c.id == id
  }

  /** `Product.find({ _id: { $in: productIds } })`: the documents of the ids that exist.
      Only membership matters to the handler, not order or repetition. */
  function FoundProducts(ids: seq<ProductId>, catalog: map<ProductId, Product>): seq<Product>
  {
    if ids == [] then []
    else (if ids[0] in catalog then [catalog[ids[0]]] else []) + FoundProducts(ids[1..], catalog)
  }

  lemma {:induction false} FoundProductsMembers(ids: seq<ProductId>, catalog: map<ProductId, Product>)
    ensures forall p :: p in FoundProducts(ids, catalog) <==> exists k :: 0 <= k < |ids| && ids[k] in catalog && catalog[ids[k]] == p
    ensures FoundProducts(ids, catalog) == [] <==> forall k | 0 <= k < |ids| :: ids[k] !in catalog
  {
    if ids != [] {
      FoundProductsMembers(ids[1..], catalog);
      forall p | p in FoundProducts(ids, catalog)
        ensures exists k :: 0 <= k < |ids| && ids[k] in catalog && catalog[ids[k]] == p
      {
        if !(ids[0] in catalog && catalog[ids[0]] == p) {
          var k :| 0 <= k < |ids[1..]| && ids[1..][k] in catalog && catalog[ids[1..][k]] == p;
          assert ids[k + 1] == ids[1..][k];
        }
      }
      forall p | exists k :: 0 <= k < |ids| && ids[k] in catalog && catalog[ids[k]] == p
        ensures p in FoundProducts(ids, catalog)
      {
        var k :| 0 <= k < |ids| && ids[k] in catalog && catalog[ids[k]] == p;
        if k > 0 {
          assert ids[1..][k - 1] == ids[k];
        }
      }
      if forall k | 0 <= k < |ids| :: ids[k] !in catalog {
        assert forall k | 0 <= k < |ids[1..]| :: ids[1..][k] == ids[k + 1];
      } else {
        var k :| 0 <= k < |ids| && ids[k] in catalog;
        assert catalog[ids[k]] in FoundProducts(ids, catalog);
      }
    }
  }

  /** Index k holds the first coupon of `ds` with the id, the one `discount.find` returns. */
  predicate FirstWithCouponId(ds: seq<Coupon>, id: CouponId, k: int)
  {
    0 <= k < |ds| && ds[k].id == id && forall j | 0 <= j < k :: ds[j].id != id
  }

  /** Enabled, and `now` within [startDate, endDate]. */
  predicate Usable(c: Coupon, now: int)
  {
    c.isEnabled && c.startDate <= now <= c.endDate
  }

  /** Everything `validateCoupon` checks before the applicability test: a non-empty id list, a known
      user, at least one existing product, the coupon among the user's coupons, enabled, and `now`
      within [startDate, endDate]. */
  function CouponLookup(productIds: Option<seq<ProductId>>, discounts: Option<seq<Coupon>>,
                        catalog: map<ProductId, Product>, couponId: CouponId, now: int)
    : (r: Result<(Coupon, seq<Product>)>)
    ensures r.Ok? ==> productIds.Some? && discounts.Some? && r.value.1 == FoundProducts(productIds.value, catalog)
    ensures r.Ok? ==> r.value.1 != [] && r.value.0 in discounts.value && r.value.0.id == couponId
    ensures r.Ok? ==> r.value.0.isEnabled && r.value.0.startDate <= now <= r.value.0.endDate
    ensures r.Ok? ==> exists k :: FirstWithCouponId(discounts.value, couponId, k) && r.value.0 == discounts.value[k]
    ensures r.Ok? <==> && productIds.Some? && productIds.value != [] && discounts.Some?
                       && FoundProducts(productIds.value, catalog) != []
                       && exists k :: FirstWithCouponId(discounts.value, couponId, k) && Usable(discounts.value[k], now)
    ensures (productIds.None? || productIds.value == []) ==> r == Err(BadRequest)
    ensures productIds.Some? && productIds.value != [] && discounts.None? ==> r == Err(NotFound)
    ensures r.Err? ==> r.status == BadRequest || r.status == NotFound
  {
    if productIds.None? || productIds.value == [] then Err(BadRequest)
    else if discounts.None? then Err(NotFound)
    else
      var products := FoundProducts(productIds.value, catalog);
      if products == [] then Err(NotFound)
      else
        match FindFirst(discounts.value, HasCouponId(couponId))
        case None => Err(BadRequest)
        case Some(k) =>
          var c := discounts.value[k];
          assert FirstWithCouponId(discounts.value, couponId, k) by {
            assert HasCouponId(couponId)(c);
          }
          if !c.isEnabled || now < c.startDate || now > c.endDate then
            FirstCouponUnique(discounts.value, couponId, k);
            Err(BadRequest)
          else Ok((c, products))
  }

  lemma FirstCouponUnique(ds: seq<Coupon>, id: CouponId, k: nat)
    requires FirstWithCouponId(ds, id, k)
    ensures forall i | FirstWithCouponId(ds, id, i) :: i == k
  {
  }

  /** The applicability rule: site-wide coupons apply to anything, seller coupons to that seller's
      products, product coupons to the products they list; any other productType to nothing. */
  predicate Applies(c: Coupon, products: seq<Product>)
  {
    if c.productType == 0 then true
    else if c.productType == 1 then forall k | 0 <= k < |products| :: c.seller == Some(products[k].sellerOwned)
    else if c.productType == 2 then forall k | 0 <= k < |products| :: products[k].id in c.productChoose
    else false
  }

  /** `validateCoupon`, with the seller test comparing each product's `sellerOwned`. */
  function ValidateCoupon(productIds: Option<seq<ProductId>>, discounts: Option<seq<Coupon>>,
                          catalog: map<ProductId, Product>, couponId: CouponId, now: int): (r: Result<Coupon>)
    ensures r.Ok? ==> productIds.Some? && discounts.Some? && r.value in discounts.value && r.value.id == couponId
    ensures r.Ok? ==> r.value.isEnabled && r.value.startDate <= now <= r.value.endDate
    ensures r.Ok? ==> r.value.productType in {0, 1, 2}
    ensures r.Ok? && r.value.productType == 1 ==>
      forall k | 0 <= k < |productIds.value| && productIds.value[k] in catalog ::
        r.value.seller == Some(catalog[productIds.value[k]].sellerOwned)
    ensures r.Ok? && r.value.productType == 2 ==>
      forall k | 0 <= k < |productIds.value| && productIds.value[k] in catalog ::
        catalog[productIds.value[k]].id in r.value.productChoose
    ensures r.Ok? ==> CouponLookup(productIds, discounts, catalog, couponId, now)
                      == Ok((r.value, FoundProducts(productIds.value, catalog)))
    ensures CouponLookup(productIds, discounts, catalog, couponId, now).Err? ==>
              r == Err(CouponLookup(productIds, discounts, catalog, couponId, now).status)
    ensures r.Err? ==> r.status == BadRequest || r.status == NotFound
  {
    match CouponLookup(productIds, discounts, catalog, couponId, now)
    case Err(s) => Err(s)
    case Ok((c, products)) =>
      FoundProductsMembers(productIds.value, catalog);
      assert forall k | 0 <= k < |productIds.value| && productIds.value[k] in catalog ::
        catalog[productIds.value[k]] in products;
      if Applies(c, products) then Ok(c) else Err(BadRequest)
  }

  /** Once the coupon passes the common checks, a site-wide coupon is always accepted, a seller
      coupon exactly when it names the seller of every product, a product coupon exactly when it
      lists every product. */
  lemma ValidateCouponByType(productIds: Option<seq<ProductId>>, discounts: Option<seq<Coupon>>,
                             catalog: map<ProductId, Product>, couponId: CouponId, now: int)
    requires CouponLookup(productIds, discounts, catalog, couponId, now).Ok?
    ensures var c := CouponLookup(productIds, discounts, catalog, couponId, now).value.0;
      var ids := productIds.value;
      && (c.productType == 0 ==> ValidateCoupon(productIds, discounts, catalog, couponId, now) == Ok(c))
      && (c.productType == 1 ==> (ValidateCoupon(productIds, discounts, catalog, couponId, now).Ok?
            <==> forall k | 0 <= k < |ids| && ids[k] in catalog :: c.seller == Some(catalog[ids[k]].sellerOwned)))
      && (c.productType == 2 ==> (ValidateCoupon(productIds, discounts, catalog, couponId, now).Ok?
            <==> forall k | 0 <= k < |ids| && ids[k] in catalog :: catalog[ids[k]].id in c.productChoose))
  {
    var (c, products) := CouponLookup(productIds, discounts, catalog, couponId, now).value;
    var ids := productIds.value;
    FoundProductsMembers(ids, catalog);
    forall j | 0 <= j < |products| ensures exists k :: 0 <= k < |ids| && ids[k] in catalog && catalog[ids[k]] == products[j] {
      assert products[j] in products;
    }
  }

  /** The seller test as written reads `product.seller`, a field product documents do not have:
      with the coupon's seller set, `undefined.toString()` throws (500); without it, the test is false. */
  function AppliesAsWritten(c: Coupon, products: seq<Product>): Result<bool>
  {
    if c.productType == 1 then
      if products == [] then Ok(true)
      else if c.seller.None? then Ok(false)
      else Err(ServerError)
    else Ok(Applies(c, products))
  }

  function ValidateCouponAsWritten(productIds: Option<seq<ProductId>>, discounts: Option<seq<Coupon>>,
                                   catalog: map<ProductId, Product>, couponId: CouponId, now: int)
    : Result<Coupon>
  {
    match CouponLookup(productIds, discounts, catalog, couponId, now)
    case Err(s) => Err(s)
    case Ok((c, products)) =>
      match AppliesAsWritten(c, products)
      case Err(s) => Err(s)
      case Ok(valid) => if valid then Ok(c) else Err(BadRequest)
  }

  /** As written, no seller coupon is ever accepted. */
  lemma SellerCouponRejectedAsWritten(productIds: Option<seq<ProductId>>, discounts: Option<seq<Coupon>>,
                                      catalog: map<ProductId, Product>, couponId: CouponId, now: int)
    requires CouponLookup(productIds, discounts, catalog, couponId, now).Ok?
    requires CouponLookup(productIds, discounts, catalog, couponId, now).value.0.productType == 1
    ensures ValidateCouponAsWritten(productIds, discounts, catalog, couponId, now).Err?
  {
  }

  /** A seller's coupon on that seller's product: accepted when `sellerOwned` is compared,
      answered with 500 as written. */
  lemma SellerCouponExample()
    ensures var c := Coupon("c", "", 0, 10, 1, 0, 10, 1, [], true, Some("s"));
      var product := Product("p", "s", [], 0, [1], [], []);
      && ValidateCoupon(Some(["p"]), Some([c]), map["p" := product], "c", 5) == Ok(c)
      && ValidateCouponAsWritten(Some(["p"]), Some([c]), map["p" := product], "c", 5) == Err(ServerError)
  {
    var c := Coupon("c", "", 0, 10, 1, 0, 10, 1, [], true, Some("s"));
    var product := Product("p", "s", [], 0, [1], [], []);
    assert FoundProducts(["p"], map["p" := product]) == [product];
    assert HasCouponId("c")(c);
  }
}

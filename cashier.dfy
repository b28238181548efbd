/** The cashier screen: the product filter, the cart transitions (each a function from
    the previous cart to the next, as the screen's state updaters are), the totals, and
    the payment that records a sale. The screen's own state (its copy of the catalogue
    and the cart) is the class `Register`. */
module Cashier {
  import opened Common
  import opened Storage

  // ---------------------------------------------------------------- product filter

  /** ASCII `toLowerCase`: each upper-case letter becomes its lower-case partner, 32 code
      points up; every other character stays. */
  function Lower(s: string): (r: string)
    ensures |r| == |s|
    ensures forall i :: 0 <= i < |s| ==> !('A' <= r[i] <= 'Z')
    ensures forall i :: 0 <= i < |s| && 'A' <= s[i] <= 'Z' ==> r[i] as int == s[i] as int + 32
    ensures forall i :: 0 <= i < |s| && !('A' <= s[i] <= 'Z') ==> r[i] == s[i]
  {
    seq(|s|, i requires 0 <= i < |s| =>
      if 'A' <= s[i] <= 'Z' then (s[i] as int - 'A' as int + 'a' as int) as char else s[i])
  }

  /** `c` and `d` are the same character up to ASCII case. */
  predicate SameUpToCase(c: char, d: char) {
    c == d ||
    ('A' <= c <= 'Z' && d as int == c as int + 32) ||
    ('A' <= d <= 'Z' && c as int == d as int + 32)
  }

  /** The search ignores case: two strings that differ only in ASCII case lower-case to
      the same string, so a name or term typed in either case matches alike. */
  lemma LowerIgnoresCase(a: string, b: string)
    requires |a| == |b|
    requires forall i :: 0 <= i < |a| ==> SameUpToCase(a[i], b[i])
    ensures Lower(a) == Lower(b)
  {
    forall i | 0 <= i < |a| ensures Lower(a)[i] == Lower(b)[i] {
      assert SameUpToCase(a[i], b[i]);
    }
  }

  /** `s.includes(sub)`: `sub` occurs at some position of `s`, starting at the front; an
      occurrence needs room, so `sub` is never longer than `s`. */
  predicate Includes(s: string, sub: string): (r: bool)
    ensures r ==> |sub| <= |s|
  {
    sub <= s || (s != [] && Includes(s[1..], sub))
  }

  /** `includes` holds exactly when `sub` is a prefix of some suffix of `s`. */
  lemma {:induction false} IncludesSpec(s: string, sub: string)
    ensures Includes(s, sub) <==> exists k :: 0 <= k <= |s| && sub <= s[k..]
  {
    assert s[0..] == s;
    if s != [] {
      IncludesSpec(s[1..], sub);
      if exists k :: 0 <= k <= |s| - 1 && sub <= s[1..][k..] {
        var k :| 0 <= k <= |s| - 1 && sub <= s[1..][k..];
        assert s[1..][k..] == s[k + 1..];
      }
      if exists k :: 0 <= k <= |s| && sub <= s[k..] {
        var k :| 0 <= k <= |s| && sub <= s[k..];
        if k > 0 {
          assert s[1..][k - 1..] == s[k..];
        }
      }
    }
  }

  /** One product passes the screen's filter: its lower-cased name contains the lower-cased
      search term or its barcode contains the term as typed, the category is unset, "Semua"
      or the product's own, and it is in stock. */
  predicate Offered(p: Product, term: string, category: string) {
    (Includes(Lower(p.name), Lower(term)) || (p.barcode.Some? && Includes(p.barcode.value, term))) &&
    (category == "" || category == "Semua" || p.category == category) &&
    p.stock > 0
  }

  /** `filteredProducts`. */
  function FilteredProducts(ps: seq<Product>, term: string, category: string): (r: seq<Product>)
    ensures forall p :: p in r <==> p in ps && Offered(p, term, category)
  {
    Filter(ps, (p: Product) => Offered(p, term, category))
  }

  /** With an empty search and no category, the filter shows exactly the products in
      stock, in catalogue order; it never shows one out of stock. */
  lemma {:induction false} EmptySearchShowsInStock(ps: seq<Product>)
    ensures FilteredProducts(ps, "", "") == Filter(ps, (p: Product) => p.stock > 0)
    ensures forall p :: p in FilteredProducts(ps, "", "") ==> p.stock > 0
  {
    assert Lower("") == "";
    FilterAgree(ps, (p: Product) => Offered(p, "", ""), (p: Product) => p.stock > 0);
  }

  // ---------------------------------------------------------------- cart transitions

  datatype CartItem = CartItem(product: Product, quantity: int)

  function LineId(l: CartItem): string { l.product.id }

  /** `prev.map(item => item.product.id === id ? {...item, quantity: item.quantity + 1} : item)`. */
  function Increment(cart: seq<CartItem>, id: string): (r: seq<CartItem>)
    ensures |r| == |cart|
  {
    seq(|cart|, i requires 0 <= i < |cart| =>
      if cart[i].product.id == id then cart[i].(quantity := cart[i].quantity + 1) else cart[i])
  }

  /** `prev.map(item => item.product.id === id ? {...item, quantity: q} : item)`. */
  function WithQuantity(cart: seq<CartItem>, id: string, q: int): (r: seq<CartItem>)
    ensures |r| == |cart|
  {
    seq(|cart|, i requires 0 <= i < |cart| =>
      if cart[i].product.id == id then cart[i].(quantity := q) else cart[i])
  }

  /** `addToCart(product)`: a new line of one; or, when the first line for the product
      already holds its stock, no change; otherwise one more of it. Either way the
      existing lines keep their products and their order, and at most one line, of one
      unit of `p`, is added at the end. */
  function CartAfterAdd(cart: seq<CartItem>, p: Product): (r: seq<CartItem>)
    ensures |r| == |cart| || r == cart + [CartItem(p, 1)]
    ensures forall i :: 0 <= i < |cart| ==> r[i].product == cart[i].product
  {
    match Find(cart, LineId, p.id)
    case None => cart + [CartItem(p, 1)]
    case Some(line) => if line.quantity >= p.stock then cart else Increment(cart, p.id)
  }

  /** `removeFromCart(id)`: drop every line of the product and keep every other line;
      the cart shrinks exactly when it held the product. */
  function CartAfterRemove(cart: seq<CartItem>, id: string): (r: seq<CartItem>)
    ensures forall l :: l in r <==> l in cart && l.product.id != id
    ensures !Present(r, LineId, id)
    ensures |r| < |cart| <==> Present(cart, LineId, id)
  {
    RemoveAll(cart, LineId, id)
  }

  /** `updateQuantity(id, q)`: a non-positive quantity removes the line; one above the
      listed product's stock is refused; otherwise every line of the product gets `q`
      (also when the product is not in the catalogue). So a non-positive quantity leaves
      no line of the product, and a positive one keeps every line's product and position
      and changes no line except the product's, and that one only to `q`. */
  function CartAfterUpdate(cart: seq<CartItem>, products: seq<Product>, id: string, q: int): (r: seq<CartItem>)
    ensures q <= 0 ==> !Present(r, LineId, id)
    ensures q > 0 ==> |r| == |cart|
    ensures q > 0 ==> forall i :: 0 <= i < |cart| ==>
      r[i].product == cart[i].product && (r[i] == cart[i] || (r[i].product.id == id && r[i].quantity == q))
  {
    if q <= 0 then CartAfterRemove(cart, id)
    else match GetById(products, id)
      case Some(p) => if q > p.stock then cart else WithQuantity(cart, id, q)
      case None => WithQuantity(cart, id, q)
  }

  /** With one line per product, the map over all lines touches exactly the one line. */
  lemma IncrementOne(cart: seq<CartItem>, i: int)
    requires DistinctKeys(cart, LineId)
    requires 0 <= i < |cart|
    ensures Increment(cart, cart[i].product.id) == cart[i := cart[i].(quantity := cart[i].quantity + 1)]
    ensures forall q :: WithQuantity(cart, cart[i].product.id, q) == cart[i := cart[i].(quantity := q)]
  {
  }

  /** A cart whose lines carry no product `id` is left alone by the map. */
  lemma MapAbsent(cart: seq<CartItem>, id: string)
    requires !Present(cart, LineId, id)
    ensures Increment(cart, id) == cart
    ensures forall q :: WithQuantity(cart, id, q) == cart
  {
  }

  /** Changing one line's quantity keeps the lines' products, so one line per product stays. */
  lemma QuantityKeepsKeys(cart: seq<CartItem>, i: int, q: int)
    requires DistinctKeys(cart, LineId)
    requires 0 <= i < |cart|
    ensures DistinctKeys(cart[i := cart[i].(quantity := q)], LineId)
  {
    var r := cart[i := cart[i].(quantity := q)];
    assert forall j :: 0 <= j < |cart| ==> LineId(r[j]) == LineId(cart[j]);
  }

  /** `addToCart`, stated line by line: an absent product is appended as one line of one
      and nothing else changes; a present one is left alone at its stock and otherwise
      gains one unit on its own line only. The cart keeps one line per product. */
  lemma AddToCartSpec(cart: seq<CartItem>, p: Product)
    requires DistinctKeys(cart, LineId)
    ensures DistinctKeys(CartAfterAdd(cart, p), LineId)
    ensures !Present(cart, LineId, p.id) ==> CartAfterAdd(cart, p) == cart + [CartItem(p, 1)]
    ensures forall i :: 0 <= i < |cart| && cart[i].product.id == p.id ==>
      CartAfterAdd(cart, p) == if cart[i].quantity >= p.stock then cart
                            else cart[i := cart[i].(quantity := cart[i].quantity + 1)]
  {
    FirstIndexSpec(cart, LineId, p.id);
    var i := FirstIndex(cart, LineId, p.id);
    if i >= 0 {
      FirstIndexOfDistinct(cart, LineId, i);
      IncrementOne(cart, i);
      QuantityKeepsKeys(cart, i, cart[i].quantity + 1);
      forall k | 0 <= k < |cart| && cart[k].product.id == p.id ensures k == i {
        FirstIndexOfDistinct(cart, LineId, k);
      }
    } else {
      var r := cart + [CartItem(p, 1)];
      forall a, b | 0 <= a < b < |r| ensures LineId(r[a]) != LineId(r[b]) {
        if b == |cart| {
          assert LineId(cart[a]) != p.id;
        }
      }
    }
  }

  /** `removeFromCart`: no line of the product is left, every other line stays, and the
      cart keeps one line per product. */
  lemma RemoveFromCartSpec(cart: seq<CartItem>, id: string)
    requires DistinctKeys(cart, LineId)
    ensures var r := CartAfterRemove(cart, id);
      DistinctKeys(r, LineId) && !Present(r, LineId, id) &&
      forall l :: l in r <==> l in cart && l.product.id != id
  {
  }

  /** `updateQuantity`: non-positive removes the product's line; more than the listed
      stock changes nothing; otherwise the product's line, if there is one, gets exactly
      `q` and no other line changes. One line per product is kept. */
  lemma UpdateQuantitySpec(cart: seq<CartItem>, products: seq<Product>, id: string, q: int)
    requires DistinctKeys(cart, LineId)
    ensures var r := CartAfterUpdate(cart, products, id, q);
      DistinctKeys(r, LineId) &&
      (q <= 0 ==> r == CartAfterRemove(cart, id) && !Present(r, LineId, id)) &&
      (q > 0 && GetById(products, id).Some? && q > GetById(products, id).value.stock ==> r == cart) &&
      (q > 0 && !(GetById(products, id).Some? && q > GetById(products, id).value.stock) ==>
        (!Present(cart, LineId, id) ==> r == cart) &&
        forall i :: 0 <= i < |cart| && cart[i].product.id == id ==> r == cart[i := cart[i].(quantity := q)])
  {
    if q <= 0 {
      RemoveFromCartSpec(cart, id);
    } else if Present(cart, LineId, id) {
      var i :| 0 <= i < |cart| && LineId(cart[i]) == id;
      IncrementOne(cart, i);
      QuantityKeepsKeys(cart, i, q);
      forall k | 0 <= k < |cart| && cart[k].product.id == id ensures k == i {
        FirstIndexOfDistinct(cart, LineId, k);
        FirstIndexOfDistinct(cart, LineId, i);
      }
    } else {
      MapAbsent(cart, id);
    }
  }

  // ---------------------------------------------------------------- cart invariant

  /** A line whose product is listed, with between one unit and the listed stock. */
  predicate InStockLine(l: CartItem, products: seq<Product>) {
    match GetById(products, l.product.id)
    case None => false
    case Some(p) => 1 <= l.quantity <= p.stock
  }

  /** The cart invariant: one line per product, each within 1..stock of its product. */
  predicate CartValid(cart: seq<CartItem>, products: seq<Product>) {
    DistinctKeys(cart, LineId) &&
    forall i :: 0 <= i < |cart| ==> InStockLine(cart[i], products)
  }

  /** Adding an offered product (a listed one in stock) keeps the cart valid. */
  lemma AddKeepsValid(cart: seq<CartItem>, products: seq<Product>, p: Product)
    requires CartValid(cart, products)
    requires GetById(products, p.id) == Some(p) && p.stock > 0
    ensures CartValid(CartAfterAdd(cart, p), products)
  {
    AddToCartSpec(cart, p);
    var r := CartAfterAdd(cart, p);
    if Present(cart, LineId, p.id) {
      var i :| 0 <= i < |cart| && LineId(cart[i]) == p.id;
      if cart[i].quantity < p.stock {
        var line := cart[i].(quantity := cart[i].quantity + 1);
        assert r == cart[i := line];
        assert InStockLine(cart[i], products);
        assert InStockLine(line, products);
        forall j | 0 <= j < |r| ensures InStockLine(r[j], products) {
          if j != i {
            assert r[j] == cart[j];
          }
        }
      }
    } else {
      assert InStockLine(CartItem(p, 1), products);
      forall j | 0 <= j < |r| ensures InStockLine(r[j], products) {
        if j < |cart| {
          assert r[j] == cart[j];
        }
      }
    }
  }

  /** Every accepted quantity change keeps the cart valid. */
  lemma UpdateKeepsValid(cart: seq<CartItem>, products: seq<Product>, id: string, q: int)
    requires CartValid(cart, products)
    ensures CartValid(CartAfterUpdate(cart, products, id, q), products)
  {
    UpdateQuantitySpec(cart, products, id, q);
    var r := CartAfterUpdate(cart, products, id, q);
    if q <= 0 {
      RemoveKeepsValid(cart, products, id);
    } else if Present(cart, LineId, id) {
      var i :| 0 <= i < |cart| && LineId(cart[i]) == id;
      assert InStockLine(cart[i], products);
      assert forall j :: 0 <= j < |r| && j != i ==> r[j] == cart[j];
    }
  }

  lemma RemoveKeepsValid(cart: seq<CartItem>, products: seq<Product>, id: string)
    requires CartValid(cart, products)
    ensures CartValid(CartAfterRemove(cart, id), products)
  {
    RemoveFromCartSpec(cart, id);
    var r := CartAfterRemove(cart, id);
    forall j | 0 <= j < |r| ensures InStockLine(r[j], products) {
      assert r[j] in cart;
    }
  }

  // ---------------------------------------------------------------- totals and payment

  datatype Totals = Totals(subtotal: real, tax: real, total: real)

  /** No line has a negative price or quantity. */
  predicate NonNegLines(cart: seq<CartItem>) {
    forall i :: 0 <= i < |cart| ==> cart[i].product.price >= 0.0 && cart[i].quantity >= 0
  }

  /** The sum of price times quantity over the lines; never negative when no price or
      quantity is. */
  function Subtotal(cart: seq<CartItem>): (r: real)
    ensures NonNegLines(cart) ==> r >= 0.0
  {
    if cart == [] then 0.0
    else
      var last := cart[|cart| - 1];
      assert NonNegLines(cart) ==> NonNegLines(cart[..|cart| - 1]) && last.product.price * last.quantity as real >= 0.0;
      Subtotal(cart[..|cart| - 1]) + last.product.price * last.quantity as real
  }

  /** `calculateTotal`: the subtotal is what the lines' sale items add up to, the tax is
      10% of it, and the total is their sum. The empty cart costs nothing; the total is
      always 110% of the subtotal; with no negative price or quantity, nothing is
      negative and the total is at least the subtotal. */
  function CalculateTotal(cart: seq<CartItem>): (r: Totals)
    ensures r.subtotal == ItemsTotal(SaleItems(cart))
    ensures r.tax == r.subtotal / 10.0
    ensures r.total == r.subtotal + r.tax
    ensures cart == [] ==> r == Totals(0.0, 0.0, 0.0)
    ensures r.total == r.subtotal * 11.0 / 10.0
    ensures NonNegLines(cart) ==> 0.0 <= r.subtotal <= r.total
  {
    SaleItemsAddUp(cart);
    var subtotal := Subtotal(cart);
    Totals(subtotal, subtotal * 0.1, subtotal + subtotal * 0.1)
  }

  /** One sale item per cart line, in order, with `total = price * quantity`. */
  function SaleItems(cart: seq<CartItem>): (r: seq<TransactionItem>)
    ensures |r| == |cart|
  {
    seq(|cart|, i requires 0 <= i < |cart| => ItemOf(cart[i]))
  }

  function ItemOf(l: CartItem): TransactionItem {
    TransactionItem(l.product.id, l.product.name, l.quantity, l.product.price, l.product.price * l.quantity as real)
  }

  lemma SaleItemsPrefix(cart: seq<CartItem>)
    requires cart != []
    ensures SaleItems(cart) == SaleItems(cart[..|cart| - 1]) + [ItemOf(cart[|cart| - 1])]
  {
  }

  /** The sum of the items' `total` fields. */
  function ItemsTotal(items: seq<TransactionItem>): real {
    if items == [] then 0.0 else ItemsTotal(items[..|items| - 1]) + items[|items| - 1].total
  }

  /** The recorded sale is self-consistent: its items' totals add up to its subtotal. */
  lemma {:induction false} SaleItemsAddUp(cart: seq<CartItem>)
    ensures ItemsTotal(SaleItems(cart)) == Subtotal(cart)
  {
    if cart != [] {
      var init := cart[..|cart| - 1];
      SaleItemsAddUp(init);
      SaleItemsPrefix(cart);
      assert SaleItems(cart)[..|init|] == SaleItems(init);
    }
  }

  /** With one line per product, the units of a product among the sale items are its
      line's quantity, or zero without a line. */
  lemma {:induction false} SaleItemsQty(cart: seq<CartItem>, id: string)
    requires DistinctKeys(cart, LineId)
    ensures !Present(cart, LineId, id) ==> QtyFor(SaleItems(cart), id) == 0
    ensures forall j :: 0 <= j < |cart| && cart[j].product.id == id ==> QtyFor(SaleItems(cart), id) == cart[j].quantity
  {
    if cart != [] {
      var init, last := cart[..|cart| - 1], cart[|cart| - 1];
      SaleItemsPrefix(cart);
      assert SaleItems(cart)[..|init|] == SaleItems(init);
      assert DistinctKeys(init, LineId);
      SaleItemsQty(init, id);
      if last.product.id == id {
        assert !Present(init, LineId, id);
      }
    }
  }

  /** The sale `processPayment` records. */
  function PaymentDraft(cart: seq<CartItem>, paymentMethod: PaymentMethod): TransactionDraft {
    var t := CalculateTotal(cart);
    TransactionDraft(SaleItems(cart), t.subtotal, t.tax, t.total, paymentMethod, None, "cashier-1")
  }

  /** The screen's own catalogue after a payment: each product with a cart line loses
      that line's quantity (its first line, as `cart.find` reads it). Only stock changes:
      unlike the store, this copy does not refresh `updatedAt`. */
  function LocalStockAfter(products: seq<Product>, cart: seq<CartItem>): (r: seq<Product>)
    ensures |r| == |products|
    ensures forall i :: 0 <= i < |products| ==> r[i] == products[i].(stock := r[i].stock)
  {
    seq(|products|, i requires 0 <= i < |products| =>
      match Find(cart, LineId, products[i].id)
      case None => products[i]
      case Some(l) => products[i].(stock := products[i].stock - l.quantity))
  }

  /** Paying for a valid cart never drives a listed product's stock below zero: each
      product loses exactly its line's quantity, and products without a line are
      unchanged. */
  lemma LocalStockSpec(products: seq<Product>, cart: seq<CartItem>)
    requires CartValid(cart, products)
    requires DistinctKeys(products, ProductId)
    ensures var r := LocalStockAfter(products, cart);
      forall i :: 0 <= i < |products| ==>
        (!Present(cart, LineId, products[i].id) ==> r[i] == products[i]) &&
        (forall j :: 0 <= j < |cart| && cart[j].product.id == products[i].id ==>
          r[i] == products[i].(stock := products[i].stock - cart[j].quantity) && r[i].stock >= 0)
  {
    var r := LocalStockAfter(products, cart);
    forall i, j | 0 <= i < |products| && 0 <= j < |cart| && cart[j].product.id == products[i].id
      ensures r[i] == products[i].(stock := products[i].stock - cart[j].quantity) && r[i].stock >= 0
    {
      FirstIndexOfDistinct(cart, LineId, j);
      FirstIndexOfDistinct(products, ProductId, i);
      assert InStockLine(cart[j], products);
    }
    forall i | 0 <= i < |products| && !Present(cart, LineId, products[i].id) ensures r[i] == products[i] {
      FirstIndexSpec(cart, LineId, products[i].id);
    }
  }

  /** The screen's catalogue and the stored one agree after a payment: when both started
      equal, with distinct ids and one cart line per product, every product has the same
      stock in both, and they differ at most in `updatedAt`, which only the store
      refreshes. */
  lemma LocalMatchesStore(products: seq<Product>, cart: seq<CartItem>, now: string)
    requires DistinctKeys(products, ProductId)
    requires DistinctKeys(cart, LineId)
    ensures var stored, local := ApplySale(products, SaleItems(cart), now), LocalStockAfter(products, cart);
      |stored| == |local| &&
      forall j :: 0 <= j < |local| ==> stored[j].stock == local[j].stock && SameExceptStock(local[j], stored[j])
  {
    SaleEffect(products, SaleItems(cart), now);
    var stored, local := ApplySale(products, SaleItems(cart), now), LocalStockAfter(products, cart);
    forall j | 0 <= j < |local| ensures stored[j].stock == local[j].stock && SameExceptStock(local[j], stored[j]) {
      FirstIndexOfDistinct(products, ProductId, j);
      SaleItemsQty(cart, products[j].id);
      FirstIndexSpec(cart, LineId, products[j].id);
    }
  }

  // ---------------------------------------------------------------- the screen's state

  /** The cashier screen's state: its copy of the catalogue and the cart. */
  class Register {
    var products: seq<Product>
    var cart: seq<CartItem>

    /** The catalogue has distinct ids and the cart satisfies its invariant. */
    predicate Valid()
      reads this
    {
      DistinctKeys(products, ProductId) && CartValid(cart, products)
    }

    /** The screen loads the stored catalogue, with an empty cart. */
    constructor (store: Store)
      requires DistinctKeys(store.products, ProductId)
      ensures products == store.products && cart == []
      ensures Valid()
    {
      products := store.products;
      cart := [];
    }

    /** Click on an offered product. */
    method AddToCart(p: Product, term: string, category: string)
      requires Valid()
      requires p in FilteredProducts(products, term, category) && GetById(products, p.id) == Some(p)
      modifies this`cart
      ensures cart == CartAfterAdd(old(cart), p)
      ensures Valid()
    {
      AddKeepsValid(cart, products, p);
      cart := CartAfterAdd(cart, p);
    }

    method UpdateQuantity(id: string, q: int)
      requires Valid()
      modifies this`cart
      ensures cart == CartAfterUpdate(old(cart), products, id, q)
      ensures Valid()
    {
      UpdateKeepsValid(cart, products, id, q);
      cart := CartAfterUpdate(cart, products, id, q);
    }

    method RemoveFromCart(id: string)
      requires Valid()
      modifies this`cart
      ensures cart == CartAfterRemove(old(cart), id)
      ensures Valid()
    {
      RemoveKeepsValid(cart, products, id);
      cart := CartAfterRemove(cart, id);
    }

    /** `clearCart`. */
    method ClearCart()
      requires Valid()
      modifies this`cart
      ensures cart == [] && Valid()
    {
      cart := [];
    }

    /** `processPayment`: nothing on an empty cart; otherwise record the sale (which
        lowers the stored stock), lower the screen's own stock by the cart, and empty
        the cart. The new transaction's id and time are parameters. */
    method ProcessPayment(store: Store, paymentMethod: PaymentMethod, id: string, now: string)
        returns (t: Option<Transaction>)
      requires Valid()
      modifies this, store`transactions, store`products
      ensures old(cart) == [] ==> t == None && unchanged(this) && unchanged(store)
      ensures old(cart) != [] ==>
        t == Some(NewTransaction(PaymentDraft(old(cart), paymentMethod), id, now)) &&
        store.transactions == old(store.transactions) + [t.value] &&
        store.products == ApplySale(old(store.products), SaleItems(old(cart)), now) &&
        products == LocalStockAfter(old(products), old(cart)) &&
        cart == []
      ensures Valid()
    {
      if cart == [] {
        return None;
      }
      var draft := PaymentDraft(cart, paymentMethod);
      var saved := store.SaveTransaction(draft, id, now);
      t := Some(saved);
      LocalStockSpec(products, cart);
      var after := LocalStockAfter(products, cart);
      assert forall i :: 0 <= i < |after| ==> after[i].id == products[i].id;
      assert DistinctKeys(after, ProductId);
      products := after;
      cart := [];
    }
  }
}

/** The persistence layer of the point-of-sale app: product, transaction and customer
    repositories, each an ordered collection of records. Browser storage and its JSON
    encoding are replaced by sequences held in a `Store` object; the id generator and the
    clock are parameters (`id`, `now`). */
module Storage {
  import opened Common
  import opened Dates

  // ---------------------------------------------------------------- records

  datatype Product = Product(
    id: string,
    name: string,
    price: real,
    stock: int,
    category: string,
    barcode: Option<string>,
    image: Option<string>,
    createdAt: string,
    updatedAt: string)

  /** What a caller of `save` supplies: a product without id and timestamps. */
  datatype ProductDraft = ProductDraft(
    name: string,
    price: real,
    stock: int,
    category: string,
    barcode: Option<string>,
    image: Option<string>)

  /** A `Partial<Product>`: every field may be supplied or left out. */
  datatype ProductPatch = ProductPatch(
    id: Change<string>,
    name: Change<string>,
    price: Change<real>,
    stock: Change<int>,
    category: Change<string>,
    barcode: Change<Option<string>>,
    image: Change<Option<string>>,
    createdAt: Change<string>,
    updatedAt: Change<string>)

  datatype TransactionItem = TransactionItem(
    productId: string,
    productName: string,
    quantity: int,
    price: real,
    total: real)

  datatype PaymentMethod = Cash | Card | Digital

  datatype Transaction = Transaction(
    id: string,
    items: seq<TransactionItem>,
    subtotal: real,
    tax: real,
    total: real,
    paymentMethod: PaymentMethod,
    customerId: Option<string>,
    cashierId: string,
    createdAt: string)

  datatype TransactionDraft = TransactionDraft(
    items: seq<TransactionItem>,
    subtotal: real,
    tax: real,
    total: real,
    paymentMethod: PaymentMethod,
    customerId: Option<string>,
    cashierId: string)

  datatype Customer = Customer(
    id: string,
    name: string,
    email: Option<string>,
    phone: Option<string>,
    address: Option<string>,
    createdAt: string)

  datatype CustomerDraft = CustomerDraft(
    name: string,
    email: Option<string>,
    phone: Option<string>,
    address: Option<string>)

  datatype CustomerPatch = CustomerPatch(
    id: Change<string>,
    name: Change<string>,
    email: Change<Option<string>>,
    phone: Change<Option<string>>,
    address: Change<Option<string>>,
    createdAt: Change<string>)

  function ProductId(p: Product): string { p.id }
  function CustomerId(c: Customer): string { c.id }

  // ---------------------------------------------------------------- products

  /** The record `save` creates: the draft's fields, a fresh id, both timestamps `now`. */
  function NewProduct(d: ProductDraft, id: string, now: string): Product {
    Product(id, d.name, d.price, d.stock, d.category, d.barcode, d.image, now, now)
  }

  /** The draft a stored product was made from. */
  function DraftOf(p: Product): ProductDraft {
    ProductDraft(p.name, p.price, p.stock, p.category, p.barcode, p.image)
  }

  /** `{...p, ...u, updatedAt: now}`: supplied fields override, the rest stay, and
      `updatedAt` is always refreshed, even when the patch supplies one. */
  function MergeProduct(p: Product, u: ProductPatch, now: string): (r: Product)
    ensures r.updatedAt == now
    ensures u.stock.Set? && u == StockPatch(u.stock.value) ==> r == p.(stock := u.stock.value, updatedAt := now)
  {
    Product(u.id.Or(p.id), u.name.Or(p.name), u.price.Or(p.price), u.stock.Or(p.stock),
            u.category.Or(p.category), u.barcode.Or(p.barcode), u.image.Or(p.image),
            u.createdAt.Or(p.createdAt), now)
  }

  /** The patch `updateStock` passes to `update`: `{ stock: n }`. */
  function StockPatch(n: int): ProductPatch {
    ProductPatch(Keep, Keep, Keep, Set(n), Keep, Keep, Keep, Keep, Keep)
  }

  /** `getById`: the first product with that id. */
  function GetById(ps: seq<Product>, id: string): (r: Option<Product>)
    ensures r.Some? ==> r.value.id == id
  {
    Find(ps, ProductId, id)
  }

  /** `getById` is null exactly when no record has the id, and otherwise the first
      record that has it. */
  lemma GetByIdSpec(ps: seq<Product>, id: string)
    ensures GetById(ps, id).None? <==> forall j :: 0 <= j < |ps| ==> ps[j].id != id
    ensures GetById(ps, id).Some? ==>
      exists i :: 0 <= i < |ps| && ps[i] == GetById(ps, id).value &&
        forall j :: 0 <= j < i ==> ps[j].id != id
  {
    FirstIndexSpec(ps, ProductId, id);
  }

  /** The collection after `update(id, u)`: same length, untouched when no record has
      the id, and with every record keeping its id when the patch does not change it. */
  function ProductsAfterUpdate(ps: seq<Product>, id: string, u: ProductPatch, now: string): (r: seq<Product>)
    ensures |r| == |ps|
    ensures !Present(ps, ProductId, id) ==> r == ps
    ensures (u.id == Keep || u.id == Set(id)) ==> SameIds(ps, r)
  {
    FirstIndexSpec(ps, ProductId, id);
    UpdateFirst(ps, ProductId, id, p => MergeProduct(p, u, now))
  }

  /** The collection after `updateStock(id, n)`. */
  function ProductsAfterStock(ps: seq<Product>, id: string, n: int, now: string): (r: seq<Product>)
    ensures |r| == |ps|
    ensures var i := FirstIndex(ps, ProductId, id);
      (i == -1 ==> r == ps) &&
      (i >= 0 ==> r == ps[i := ps[i].(stock := n, updatedAt := now)])
  {
    ProductsAfterUpdate(ps, id, StockPatch(n), now)
  }

  /** A saved product is found by its id and gives back its draft. */
  lemma SaveThenGet(ps: seq<Product>, d: ProductDraft, id: string, now: string)
    requires !Present(ps, ProductId, id)
    ensures var p := GetById(ps + [NewProduct(d, id, now)], id);
      p.Some? && p.value.id == id && DraftOf(p.value) == d &&
      p.value.createdAt == now && p.value.updatedAt == now
  {
    var s := ps + [NewProduct(d, id, now)];
    FirstIndexSpec(ps, ProductId, id);
    FirstIndexSpec(s, ProductId, id);
    assert ProductId(s[|ps|]) == id;
    assert FirstIndex(s, ProductId, id) == |ps|;
  }

  /** An update that keeps the id is visible through `getById`: it finds the merged record. */
  lemma UpdateThenGetSame(ps: seq<Product>, id: string, u: ProductPatch, now: string)
    requires u.id == Keep || u.id == Set(id)
    ensures GetById(ProductsAfterUpdate(ps, id, u, now), id) ==
      match GetById(ps, id)
      case None => None
      case Some(p) => Some(MergeProduct(p, u, now))
  {
    var r := ProductsAfterUpdate(ps, id, u, now);
    var i := FirstIndex(ps, ProductId, id);
    if i >= 0 {
      FirstIndexPreserved(ps, r, id, i);
    }
  }

  /** An update that keeps the id changes nothing `getById` shows for any other id. */
  lemma UpdateThenGetOther(ps: seq<Product>, id: string, u: ProductPatch, now: string, other: string)
    requires u.id == Keep || u.id == Set(id)
    requires other != id
    ensures GetById(ProductsAfterUpdate(ps, id, u, now), other) == GetById(ps, other)
  {
    var r := ProductsAfterUpdate(ps, id, u, now);
    var i := FirstIndex(ps, ProductId, id);
    if i >= 0 {
      FirstIndexPreserved(ps, r, other, i);
    }
  }

  /** Changing one record in place, without changing its id, keeps the first index of every key. */
  lemma FirstIndexPreserved(ps: seq<Product>, r: seq<Product>, key: string, i: int)
    requires |r| == |ps| && 0 <= i < |ps|
    requires forall j :: 0 <= j < |ps| && j != i ==> r[j] == ps[j]
    requires r[i].id == ps[i].id
    ensures FirstIndex(r, ProductId, key) == FirstIndex(ps, ProductId, key)
  {
    SameKeysSameFirstIndex(ps, r, key);
  }

  /** `r` lists the same ids as `ps`, position by position. */
  predicate SameIds(ps: seq<Product>, r: seq<Product>) {
    |r| == |ps| && forall j :: 0 <= j < |ps| ==> r[j].id == ps[j].id
  }

  lemma {:induction false} SameKeysSameFirstIndex(ps: seq<Product>, r: seq<Product>, key: string)
    requires SameIds(ps, r)
    ensures FirstIndex(r, ProductId, key) == FirstIndex(ps, ProductId, key)
  {
    if ps != [] && ps[0].id != key {
      SameKeysSameFirstIndex(ps[1..], r[1..], key);
    }
  }

  /** `updateStock(id, n)` sets exactly `n`, negative or not, and `getById` shows it. */
  lemma UpdateStockThenGet(ps: seq<Product>, id: string, n: int, now: string)
    requires Present(ps, ProductId, id)
    ensures var p := GetById(ProductsAfterStock(ps, id, n, now), id);
      p.Some? && p.value.stock == n && p.value.updatedAt == now &&
      p.value == GetById(ps, id).value.(stock := n, updatedAt := now)
  {
    FirstIndexSpec(ps, ProductId, id);
    UpdateThenGetSame(ps, id, StockPatch(n), now);
  }

  /** A second delete of the same id finds nothing, so it reports false and changes nothing. */
  lemma DeleteIdempotent<T(!new)>(s: seq<T>, key: T -> string, id: string)
    ensures !Present(RemoveAll(s, key, id), key, id)
    ensures RemoveAll(RemoveAll(s, key, id), key, id) == RemoveAll(s, key, id)
  {
    RemoveAbsent(RemoveAll(s, key, id), key, id);
  }

  // ---------------------------------------------------------------- sample data

  /** The five products `initializeSampleData` seeds. */
  const SampleDrafts: seq<ProductDraft> := [
    ProductDraft("Kopi Americano", 25000.0, 50, "Minuman", None, None),
    ProductDraft("Nasi Goreng", 35000.0, 30, "Makanan", None, None),
    ProductDraft("Es Teh Manis", 12000.0, 100, "Minuman", None, None),
    ProductDraft("Ayam Bakar", 45000.0, 20, "Makanan", None, None),
    ProductDraft("Jus Jeruk", 18000.0, 40, "Minuman", None, None)
  ]

  /** The catalogue after seeding an empty store, given the five fresh ids. */
  function Seeded(ids: seq<string>, now: string): (r: seq<Product>)
    requires |ids| == |SampleDrafts|
    ensures |r| == 5
    ensures forall i :: 0 <= i < 5 ==> r[i].id == ids[i] && DraftOf(r[i]) == SampleDrafts[i]
  {
    seq(|SampleDrafts|, i requires 0 <= i < |SampleDrafts| => NewProduct(SampleDrafts[i], ids[i], now))
  }

  // ---------------------------------------------------------------- transactions

  function NewTransaction(d: TransactionDraft, id: string, now: string): Transaction {
    Transaction(id, d.items, d.subtotal, d.tax, d.total, d.paymentMethod, d.customerId, d.cashierId, now)
  }

  /** Units of product `id` among `items`. */
  function QtyFor(items: seq<TransactionItem>, id: string): int {
    if items == [] then 0
    else QtyFor(items[..|items| - 1], id) +
         (if items[|items| - 1].productId == id then items[|items| - 1].quantity else 0)
  }

  /** Units among `items` whose product is listed in `ps`: what the cascade takes off stock. */
  function ListedQty(items: seq<TransactionItem>, ps: seq<Product>): int {
    if items == [] then 0
    else ListedQty(items[..|items| - 1], ps) +
         (if Present(ps, ProductId, items[|items| - 1].productId) then items[|items| - 1].quantity else 0)
  }

  /** One step of the stock cascade: a listed product loses `item.quantity` from its
      current stock; an unlisted one is skipped. */
  function SaleStep(ps: seq<Product>, item: TransactionItem, now: string): seq<Product> {
    match GetById(ps, item.productId)
    case None => ps
    case Some(p) => ProductsAfterStock(ps, item.productId, p.stock - item.quantity, now)
  }

  /** The products after the cascade of `transactionStorage.save`, item by item in order;
      the cascade only changes records in place, so the ids stay as they were. */
  function ApplySale(ps: seq<Product>, items: seq<TransactionItem>, now: string): (r: seq<Product>)
    ensures SameIds(ps, r)
  {
    if items == [] then ps
    else SaleStep(ApplySale(ps, items[..|items| - 1], now), items[|items| - 1], now)
  }

  /** What the loop body of `transactionStorage.save` does to the products is one `SaleStep`. */
  lemma SaleStepIs(ps: seq<Product>, item: TransactionItem, now: string, found: Option<Product>, r: seq<Product>)
    requires found == GetById(ps, item.productId)
    requires found.Some? ==> r == ProductsAfterStock(ps, item.productId, found.value.stock - item.quantity, now)
    requires found.None? ==> r == ps
    ensures r == SaleStep(ps, item, now)
  {
  }

  lemma ApplySalePrefix(ps: seq<Product>, items: seq<TransactionItem>, k: int, now: string)
    requires 0 <= k < |items|
    ensures ApplySale(ps, items[..k + 1], now) == SaleStep(ApplySale(ps, items[..k], now), items[k], now)
  {
    assert items[..k + 1][..k] == items[..k];
  }

  /** `q` is `p` with at most its stock and `updatedAt` changed. */
  predicate SameExceptStock(p: Product, q: Product) {
    q == p.(stock := q.stock, updatedAt := q.updatedAt)
  }

  function ItemProductId(it: TransactionItem): string { it.productId }

  /** Items that never name `id` take nothing off it. */
  lemma {:induction false} QtyForAbsent(items: seq<TransactionItem>, id: string)
    requires !Present(items, ItemProductId, id)
    ensures QtyFor(items, id) == 0
  {
    if items != [] {
      var init := items[..|items| - 1];
      assert items == init + [items[|items| - 1]];
      PresentSnoc(init, items[|items| - 1], ItemProductId, id);
      QtyForAbsent(init, id);
    }
  }

  /** Record `j` after a sale, stated without the cascade: the first record with an id
      that some item names loses all of that id's units and gets `updatedAt := now`;
      every other record, including later duplicates of an id, is left as it was. */
  function SoldRecord(ps: seq<Product>, items: seq<TransactionItem>, now: string, j: int): Product
    requires 0 <= j < |ps|
  {
    var p := ps[j];
    if FirstIndex(ps, ProductId, p.id) == j && Present(items, ItemProductId, p.id)
    then p.(stock := p.stock - QtyFor(items, p.id), updatedAt := now)
    else p
  }

  /** One more item moves each record from its state after the earlier items to its
      state after all of them. */
  lemma SaleStepAt(ps: seq<Product>, init: seq<TransactionItem>, last: TransactionItem, now: string,
                   r': seq<Product>, j: int)
    requires |r'| == |ps| && 0 <= j < |ps|
    requires forall k :: 0 <= k < |ps| ==> r'[k] == SoldRecord(ps, init, now, k)
    ensures SaleStep(r', last, now)[j] == SoldRecord(ps, init + [last], now, j)
  {
    var items := init + [last];
    var id, lid := ps[j].id, last.productId;
    assert SameIds(ps, r');
    SameKeysSameFirstIndex(ps, r', lid);
    FirstIndexSpec(ps, ProductId, lid);
    PresentSnoc(init, last, ItemProductId, id);
    assert items[..|items| - 1] == init;
    var i := FirstIndex(ps, ProductId, lid);
    if i == j && !Present(init, ItemProductId, id) {
      QtyForAbsent(init, id);
    }
  }

  /** The exact effect of the cascade: record `j` ends as `SoldRecord` says, so the first
      product with each id loses the total quantity of that id's items (cumulatively, so
      repeated items add up) and gets `updatedAt := now` when an item names it; every
      other record is unchanged, as is every field but stock and `updatedAt`; items for
      missing products change nothing. */
  lemma {:induction false} SaleEffect(ps: seq<Product>, items: seq<TransactionItem>, now: string)
    ensures var r := ApplySale(ps, items, now);
      SameIds(ps, r) &&
      forall j :: 0 <= j < |ps| ==>
        r[j] == SoldRecord(ps, items, now, j) &&
        SameExceptStock(ps[j], r[j]) &&
        r[j].stock == ps[j].stock - (if FirstIndex(ps, ProductId, ps[j].id) == j then QtyFor(items, ps[j].id) else 0)
  {
    var r := ApplySale(ps, items, now);
    if items != [] {
      var init, last := items[..|items| - 1], items[|items| - 1];
      SaleEffect(ps, init, now);
      var r' := ApplySale(ps, init, now);
      assert items == init + [last];
      forall j | 0 <= j < |ps| ensures r[j] == SoldRecord(ps, items, now, j) {
        SaleStepAt(ps, init, last, now, r', j);
      }
    }
    forall j | 0 <= j < |ps|
      ensures r[j] == SoldRecord(ps, items, now, j)
      ensures r[j].stock == ps[j].stock - (if FirstIndex(ps, ProductId, ps[j].id) == j then QtyFor(items, ps[j].id) else 0)
    {
      if !Present(items, ItemProductId, ps[j].id) {
        QtyForAbsent(items, ps[j].id);
      }
    }
  }

  lemma {:induction false} TotalStockUpdate(ps: seq<Product>, i: int, p: Product)
    requires 0 <= i < |ps|
    ensures TotalStock(ps[i := p]) == TotalStock(ps) - ps[i].stock + p.stock
  {
    if i < |ps| - 1 {
      assert ps[i := p][..|ps| - 1] == ps[..|ps| - 1][i := p];
      TotalStockUpdate(ps[..|ps| - 1], i, p);
    } else {
      assert ps[i := p][..|ps| - 1] == ps[..|ps| - 1];
    }
  }

  /** Sum of the stock of every record. */
  function TotalStock(ps: seq<Product>): int {
    if ps == [] then 0 else TotalStock(ps[..|ps| - 1]) + ps[|ps| - 1].stock
  }

  /** One cascade step takes the item's quantity off the total stock iff its product is listed. */
  lemma SaleStepStock(ps: seq<Product>, item: TransactionItem, now: string)
    ensures TotalStock(SaleStep(ps, item, now)) ==
      TotalStock(ps) - (if Present(ps, ProductId, item.productId) then item.quantity else 0)
  {
    FirstIndexSpec(ps, ProductId, item.productId);
    var i := FirstIndex(ps, ProductId, item.productId);
    if i >= 0 {
      var p := ps[i].(stock := ps[i].stock - item.quantity, updatedAt := now);
      assert SaleStep(ps, item, now) == ps[i := p];
      TotalStockUpdate(ps, i, p);
    } else {
      assert SaleStep(ps, item, now) == ps;
    }
  }

  lemma SameIdsPresent(ps: seq<Product>, r: seq<Product>, id: string)
    requires SameIds(ps, r)
    ensures Present(r, ProductId, id) <==> Present(ps, ProductId, id)
  {
    SameKeysSameFirstIndex(ps, r, id);
    FirstIndexSpec(ps, ProductId, id);
    FirstIndexSpec(r, ProductId, id);
  }

  /** The cascade takes off the total stock exactly the units of the items whose
      product is listed. */
  lemma {:induction false} SaleConservesStock(ps: seq<Product>, items: seq<TransactionItem>, now: string)
    ensures TotalStock(ApplySale(ps, items, now)) == TotalStock(ps) - ListedQty(items, ps)
  {
    if items != [] {
      var init, last := items[..|items| - 1], items[|items| - 1];
      SaleConservesStock(ps, init, now);
      SaleEffect(ps, init, now);
      SameIdsPresent(ps, ApplySale(ps, init, now), last.productId);
      SaleStepStock(ApplySale(ps, init, now), last, now);
    }
  }

  /** `getByDateRange(start, end)`: the transactions whose day lies in `start..end`. */
  function GetByDateRange(ts: seq<Transaction>, start: string, end: string): (r: seq<Transaction>)
    ensures forall t :: t in r <==> t in ts && LexLe(start, DayOf(t.createdAt)) && LexLe(DayOf(t.createdAt), end)
  {
    Filter(ts, (t: Transaction) => InRange(DayOf(t.createdAt), start, end))
  }

  /** Widening the range loses nothing: every transaction of `s1..e1` is in `s2..e2`
      when `s2 <= s1` and `e1 <= e2`. */
  lemma DateRangeMonotone(ts: seq<Transaction>, s1: string, e1: string, s2: string, e2: string)
    requires LexLe(s2, s1) && LexLe(e1, e2)
    ensures forall t :: t in GetByDateRange(ts, s1, e1) ==> t in GetByDateRange(ts, s2, e2)
  {
    forall t | t in GetByDateRange(ts, s1, e1) ensures t in GetByDateRange(ts, s2, e2) {
      LexLeTransitive(s2, s1, DayOf(t.createdAt));
      LexLeTransitive(DayOf(t.createdAt), e1, e2);
    }
  }

  /** The transactions of one day. */
  function OnDay(ts: seq<Transaction>, day: string): seq<Transaction> {
    Filter(ts, (t: Transaction) => DayOf(t.createdAt) == day)
  }

  /** `getTodaysTransactions`, with today's day key as a parameter. */
  function GetTodaysTransactions(ts: seq<Transaction>, today: string): (r: seq<Transaction>)
    ensures r == OnDay(ts, today)
  {
    forall t | t in ts ensures InRange(DayOf(t.createdAt), today, today) == (DayOf(t.createdAt) == today) {
      SingleDayRange(DayOf(t.createdAt), today);
    }
    FilterAgree(ts, (t: Transaction) => InRange(DayOf(t.createdAt), today, today), (t: Transaction) => DayOf(t.createdAt) == today);
    GetByDateRange(ts, today, today)
  }

  /** The range filter keeps the log's order: it distributes over concatenation. */
  lemma DateRangeAppend(a: seq<Transaction>, b: seq<Transaction>, start: string, end: string)
    ensures GetByDateRange(a + b, start, end) == GetByDateRange(a, start, end) + GetByDateRange(b, start, end)
  {
    FilterAppend(a, b, (t: Transaction) => InRange(DayOf(t.createdAt), start, end));
  }

  /** The day filter distributes over concatenation. */
  lemma OnDayAppend(a: seq<Transaction>, b: seq<Transaction>, day: string)
    ensures OnDay(a + b, day) == OnDay(a, day) + OnDay(b, day)
    ensures OnDay([], day) == []
    ensures |b| == 1 ==> OnDay(b, day) == if DayOf(b[0].createdAt) == day then b else []
  {
    FilterAppend(a, b, (t: Transaction) => DayOf(t.createdAt) == day);
  }

  // ---------------------------------------------------------------- customers

  function NewCustomer(d: CustomerDraft, id: string, now: string): Customer {
    Customer(id, d.name, d.email, d.phone, d.address, now)
  }

  /** `{...c, ...u}`: supplied fields override, the rest stay. Unlike a product, a
      customer gets no fresh timestamp: an empty patch changes nothing, and `createdAt`
      and `id` move only when the patch supplies them. */
  function MergeCustomer(c: Customer, u: CustomerPatch): (r: Customer)
    ensures u == CustomerPatch(Keep, Keep, Keep, Keep, Keep, Keep) ==> r == c
    ensures u.createdAt.Keep? ==> r.createdAt == c.createdAt
    ensures u.id.Keep? ==> r.id == c.id
  {
    Customer(u.id.Or(c.id), u.name.Or(c.name), u.email.Or(c.email), u.phone.Or(c.phone),
             u.address.Or(c.address), u.createdAt.Or(c.createdAt))
  }

  function CustomersAfterUpdate(cs: seq<Customer>, id: string, u: CustomerPatch): seq<Customer> {
    UpdateFirst(cs, CustomerId, id, c => MergeCustomer(c, u))
  }

  // ---------------------------------------------------------------- the store

  /** The three persisted collections, in insertion order. */
  class Store {
    var products: seq<Product>
    var transactions: seq<Transaction>
    var customers: seq<Customer>

    /** The store as read back from persisted state. */
    constructor (products0: seq<Product>, transactions0: seq<Transaction>, customers0: seq<Customer>)
      ensures products == products0 && transactions == transactions0 && customers == customers0
    {
      products, transactions, customers := products0, transactions0, customers0;
    }

    /** `productStorage.save`: append one record with a fresh id. */
    method SaveProduct(d: ProductDraft, id: string, now: string) returns (p: Product)
      requires !Present(products, ProductId, id)
      modifies this`products
      ensures p == NewProduct(d, id, now)
      ensures products == old(products) + [p]
    {
      p := NewProduct(d, id, now);
      products := products + [p];
    }

    /** `productStorage.update`: null and no change for an unknown id; otherwise the
        merged first record with that id. */
    method UpdateProduct(id: string, u: ProductPatch, now: string) returns (r: Option<Product>)
      modifies this`products
      ensures products == ProductsAfterUpdate(old(products), id, u, now)
      ensures r.None? <==> !Present(old(products), ProductId, id)
      ensures r == match GetById(old(products), id)
        case None => None
        case Some(p) => Some(MergeProduct(p, u, now))
    {
      FirstIndexSpec(products, ProductId, id);
      var i := FirstIndex(products, ProductId, id);
      if i == -1 {
        return None;
      }
      products := products[i := MergeProduct(products[i], u, now)];
      r := Some(products[i]);
    }

    /** `productStorage.delete`: remove every record with the id; report whether any was. */
    method DeleteProduct(id: string) returns (removed: bool)
      modifies this`products
      ensures removed <==> Present(old(products), ProductId, id)
      ensures products == RemoveAll(old(products), ProductId, id)
    {
      var kept := RemoveAll(products, ProductId, id);
      if |kept| == |products| {
        RemoveAbsent(products, ProductId, id);
        return false;
      }
      products := kept;
      return true;
    }

    /** `productStorage.updateStock`: `update(id, { stock: n })`, no clamping. */
    method UpdateStock(id: string, n: int, now: string) returns (ok: bool)
      modifies this`products
      ensures ok <==> Present(old(products), ProductId, id)
      ensures products == ProductsAfterStock(old(products), id, n, now)
    {
      FirstIndexSpec(products, ProductId, id);
      var r := UpdateProduct(id, StockPatch(n), now);
      ok := r.Some?;
    }

    /** `transactionStorage.save`: append the record, then lower stock item by item. */
    method SaveTransaction(d: TransactionDraft, id: string, now: string) returns (t: Transaction)
      modifies this`transactions, this`products
      ensures t == NewTransaction(d, id, now)
      ensures transactions == old(transactions) + [t]
      ensures products == ApplySale(old(products), d.items, now)
    {
      t := NewTransaction(d, id, now);
      transactions := transactions + [t];
      var items := d.items;
      var k := 0;
      while k < |items|
        invariant 0 <= k <= |items|
        invariant products == ApplySale(old(products), items[..k], now)
        invariant transactions == old(transactions) + [t]
      {
        var item := items[k];
        ghost var before := products;
        var found := GetById(products, item.productId);
        if found.Some? {
          var ok := UpdateStock(item.productId, found.value.stock - item.quantity, now);
        }
        SaleStepIs(before, item, now, found, products);
        ApplySalePrefix(old(products), items, k, now);
        k := k + 1;
      }
      assert items[..|items|] == items;
    }

    /** `customerStorage.save`. */
    method SaveCustomer(d: CustomerDraft, id: string, now: string) returns (c: Customer)
      requires !Present(customers, CustomerId, id)
      modifies this`customers
      ensures c == NewCustomer(d, id, now)
      ensures customers == old(customers) + [c]
    {
      c := NewCustomer(d, id, now);
      customers := customers + [c];
    }

    /** `customerStorage.update`. */
    method UpdateCustomer(id: string, u: CustomerPatch) returns (r: Option<Customer>)
      modifies this`customers
      ensures customers == CustomersAfterUpdate(old(customers), id, u)
      ensures r.None? <==> !Present(old(customers), CustomerId, id)
      ensures r == match Find(old(customers), CustomerId, id)
        case None => None
        case Some(c) => Some(MergeCustomer(c, u))
    {
      FirstIndexSpec(customers, CustomerId, id);
      var i := FirstIndex(customers, CustomerId, id);
      if i == -1 {
        return None;
      }
      customers := customers[i := MergeCustomer(customers[i], u)];
      r := Some(customers[i]);
    }

    /** `customerStorage.delete`. */
    method DeleteCustomer(id: string) returns (removed: bool)
      modifies this`customers
      ensures removed <==> Present(old(customers), CustomerId, id)
      ensures customers == RemoveAll(old(customers), CustomerId, id)
    {
      var kept := RemoveAll(customers, CustomerId, id);
      if |kept| == |customers| {
        RemoveAbsent(customers, CustomerId, id);
        return false;
      }
      customers := kept;
      return true;
    }

    /** `initializeSampleData`: seed the five sample products iff there are none. */
    method InitializeSampleData(ids: seq<string>, now: string)
      requires |ids| == |SampleDrafts| && Distinct(ids)
      modifies this`products
      ensures |old(products)| == 0 ==> products == Seeded(ids, now)
      ensures |old(products)| != 0 ==> products == old(products)
    {
      if |products| == 0 {
        var k := 0;
        while k < |SampleDrafts|
          invariant 0 <= k <= |SampleDrafts|
          invariant products == Seeded(ids, now)[..k]
        {
          var p := SaveProduct(SampleDrafts[k], ids[k], now);
          k := k + 1;
        }
      }
    }
  }
}

/**
 * The state-changing rules of `services/inventory_service.py` with the console
 * stripped away. Most answers the service reads through a validating prompt arrive
 * here either as the typed text, with the requirement that its validator accepts
 * it, or as the value the prompt returned, with the requirement that it is one the
 * validator accepts. `InsertProduct` takes the barcode, name, description and brand
 * as given and requires only what `DraftValid` says of the price and the date.
 * Ids, clocks and today's date are parameters.
 */
module InventoryService {
  import opened Wrappers
  import opened Text
  import opened Validators
  import opened Products
  import opened Sales
  import opened Queries
  import opened ProductRepository
  import opened SalesRepository
  import Expiration

  /** The answers a new product's prompts gave. */
  datatype Draft = Draft(
    name: string,
    description: string,
    price: int,
    brand: string,
    quantity: nat,
    isPerishable: bool,
    expirationDate: Option<Day>)

  /**
   * What the price and date prompts of `insert_product` let through: a price its
   * validator accepts, and a date exactly when the product is perishable, not
   * before today.
   */
  predicate DraftValid(draft: Draft, today: Day)
  {
    && ValidatePrice(draft.price).Ok?
    && (draft.isPerishable <==> draft.expirationDate.Some?)
    && (draft.expirationDate.Some? ==> ValidateExpirationDate(draft.expirationDate.value, today).Ok?)
  }

  /**
   * `insert_product`. When a stored product already has the barcode, the entered
   * quantity is added to its stock, its update time is set and it is stored again
   * under its id; no product is created. Otherwise a new product is built from the
   * draft and inserted under the new id.
   */
  method InsertProduct(inventory: Inventory, barcode: string, topUp: int, draft: Draft,
                       newId: ProductId, now: Instant, today: Day) returns (p: Product, toppedUp: bool)
    requires inventory.Valid()
    requires topUp > 0
    requires FirstMatching(inventory.Values(), BarcodeIs(barcode)).None? ==> DraftValid(draft, today)
    modifies inventory, inventory.products.Values
    ensures inventory.Valid()
    ensures toppedUp <==> old(FirstMatching(inventory.Values(), BarcodeIs(barcode))).Some?
    ensures toppedUp ==> p == old(inventory.Values()[FirstMatching(inventory.Values(), BarcodeIs(barcode)).value])
    ensures toppedUp ==> p.Data() == old(p.Data()).(quantity := old(p.quantity) + topUp, updatedAt := now)
    ensures toppedUp ==> inventory.products == old(inventory.products)[p.id := p]
    ensures toppedUp ==> inventory.order == if p.id in old(inventory.products) then old(inventory.order) else old(inventory.order) + [p.id]
    ensures !toppedUp ==> fresh(p) && inventory.products == old(inventory.products)[newId := p]
    ensures !toppedUp ==> inventory.order == if newId in old(inventory.products) then old(inventory.order) else old(inventory.order) + [newId]
    ensures !toppedUp ==> p.Data() == ProductData(newId, draft.name, draft.description, draft.price, draft.brand,
                                                   draft.quantity, draft.isPerishable, draft.expirationDate,
                                                   barcode, now, now)
    ensures forall q :: q in old(inventory.products.Values) && q != p ==> unchanged(q)
  {
    var found := inventory.Find(BarcodeIs(barcode));
    if found.Some? {
      p := found.value;
      TopUp(inventory, p, topUp, now);
      toppedUp := true;
    } else {
      p := AddNew(inventory, barcode, draft, newId, now, today);
      toppedUp := false;
    }
  }

  /** The branch for an unknown barcode: a new product built from the draft is inserted under the new id. */
  method AddNew(inventory: Inventory, barcode: string, draft: Draft, newId: ProductId, now: Instant, today: Day) returns (p: Product)
    requires inventory.Valid()
    requires DraftValid(draft, today)
    modifies inventory
    ensures inventory.Valid()
    ensures fresh(p) && inventory.products == old(inventory.products)[newId := p]
    ensures inventory.order == if newId in old(inventory.products) then old(inventory.order) else old(inventory.order) + [newId]
    ensures p.Data() == ProductData(newId, draft.name, draft.description, draft.price, draft.brand,
                                    draft.quantity, draft.isPerishable, draft.expirationDate,
                                    barcode, now, now)
    ensures 0 < p.price <= MaxPriceCents && (p.isPerishable <==> p.expirationDate.Some?)
    ensures p.expirationDate.Some? ==> today <= p.expirationDate.value
  {
    p := new Product(newId, draft.name, draft.description, draft.price, draft.brand, draft.quantity,
                     draft.isPerishable, draft.expirationDate, barcode, now, now);
    inventory.InsertProduct(p);
  }

  /** The top-up branch: the stock grows by the amount entered and the product is stored again under its id. */
  method TopUp(inventory: Inventory, p: Product, topUp: int, now: Instant)
    requires inventory.Valid()
    modifies inventory, p
    ensures inventory.Valid()
    ensures p.Data() == old(p.Data()).(quantity := old(p.quantity) + topUp, updatedAt := now)
    ensures inventory.products == old(inventory.products)[p.id := p]
    ensures inventory.order == if p.id in old(inventory.products) then old(inventory.order) else old(inventory.order) + [p.id]
  {
    var newQuantity := p.quantity + topUp;
    p.SetQuantity(newQuantity);
    p.SetUpdatedAt(now);
    var _ := inventory.UpdateProduct(p.id, p);
  }

  /**
   * The stock step of `make_sale`: the validated quantity is taken off the product's
   * stock, which therefore stays non-negative, the product is stored again and an
   * item referring to it is returned.
   */
  method SellItem(inventory: Inventory, p: Product, quantity: int) returns (item: SaleItem)
    requires inventory.Valid()
    requires ValidateQuantityForSale(quantity, p.quantity).Ok?
    modifies inventory, p
    ensures inventory.Valid()
    ensures p.Data() == old(p.Data()).(quantity := old(p.quantity) - quantity)
    ensures 0 <= p.quantity < old(p.quantity)
    ensures inventory.products == old(inventory.products)[p.id := p]
    ensures inventory.order == if p.id in old(inventory.products) then old(inventory.order) else old(inventory.order) + [p.id]
    ensures item == SaleItem(p, quantity)
  {
    var remaining := p.quantity - quantity;
    p.SetQuantity(remaining);
    var _ := inventory.UpdateProduct(p.id, p);
    item := SaleItem(p, quantity);
  }

  /**
   * The end of `make_sale`: a sale of the collected items, with the validated seller
   * name and bare CPF digits and a fresh id, is recorded; recording never fails.
   */
  method CompleteSale(ledger: SalesLedger, items: seq<SaleItem>, sellerInput: string, cpfInput: string,
                      now: Instant, freshId: string) returns (sale: Sale, made: bool)
    requires ValidateSellerName(sellerInput).Ok?
    requires ValidateCpf(cpfInput).Ok?
    modifies ledger
    ensures made
    ensures sale == NewSale(items, ValidateSellerName(sellerInput).value, ValidateCpf(cpfInput).value, now, None, freshId)
    ensures IsCpf(sale.buyerCpf)
    ensures ledger.sales == old(ledger.sales) + [sale]
  {
    sale := NewSale(items, ValidateSellerName(sellerInput).value, ValidateCpf(cpfInput).value, now, None, freshId);
    made := ledger.MakeSale(Some(sale));
  }

  /** The units of `p` among `items`, counting every item that refers to it. */
  function UnitsOf(items: seq<SaleItem>, p: Product): int
  {
    if items == [] then 0
    else UnitsOf(items[..|items| - 1], p) + (if items[|items| - 1].product == p then items[|items| - 1].quantity else 0)
  }

  /**
   * What an abandoned `make_sale` has to undo: every product gets back the units
   * taken off it by the items collected so far, however many items refer to it,
   * and nothing else about it changes.
   */
  method RestoreStock(items: seq<SaleItem>)
    modifies set i | 0 <= i < |items| :: items[i].product
    ensures forall i :: 0 <= i < |items| ==>
      items[i].product.Data() == old(items[i].product.Data()).(quantity := old(items[i].product.quantity) + UnitsOf(items, items[i].product))
  {
    var j := 0;
    while j < |items|
      invariant 0 <= j <= |items|
      invariant forall i :: 0 <= i < |items| ==>
        items[i].product.Data() == old(items[i].product.Data()).(quantity := old(items[i].product.quantity) + UnitsOf(items[..j], items[i].product))
    {
      var p := items[j].product;
      label Before:
      p.SetQuantity(p.quantity + items[j].quantity);
      forall i | 0 <= i < |items|
        ensures items[i].product.Data() ==
          old(items[i].product.Data()).(quantity := old(items[i].product.quantity) + UnitsOf(items[..j + 1], items[i].product))
      {
        var q := items[i].product;
        assert items[..j + 1][..j] == items[..j];
        if q == p {
          assert q.Data() == old@Before(q.Data()).(quantity := old@Before(q.quantity) + items[j].quantity);
        } else {
          assert q.Data() == old@Before(q.Data());
        }
      }
      j := j + 1;
    }
    assert items[..|items|] == items;
  }

  /**
   * `make_sale` as written, for one item of 3 units out of a stock of 10 when the
   * seller's name prompt is then cancelled: the function returns early, the stock
   * stays at 7 and no sale is recorded.
   */
  method CancelledSaleAsWritten() returns (stockLeft: int, salesRecorded: int)
    ensures stockLeft == 7 && salesRecorded == 0
  {
    var inventory := new Inventory();
    var ledger := new SalesLedger();
    var p := new Product("1", "arroz", "Tipo 1", 2599, "Tio João", 10, false, None, "7891234567890", 0, 0);
    inventory.InsertProduct(p);
    var item := SellItem(inventory, p, 3);
    // the seller's name prompt returns None here and make_sale returns
    stockLeft := p.quantity;
    salesRecorded := |ledger.sales|;
  }

  /**
   * The same cancelled sale when the collected items' stock is given back before
   * returning: the stock is 10 again and still no sale is recorded.
   */
  method CancelledSaleRestoringStock() returns (stockLeft: int, salesRecorded: int)
    ensures stockLeft == 10 && salesRecorded == 0
  {
    var inventory := new Inventory();
    var ledger := new SalesLedger();
    var p := new Product("1", "arroz", "Tipo 1", 2599, "Tio João", 10, false, None, "7891234567890", 0, 0);
    inventory.InsertProduct(p);
    var item := SellItem(inventory, p, 3);
    assert UnitsOf([item], p) == 3;
    RestoreStock([item]);
    stockLeft := p.quantity;
    salesRecorded := |ledger.sales|;
  }

  /** The ids of a list of products, in order. */
  function IdList(ps: seq<Product>): (ids: seq<ProductId>)
    reads ps
    ensures |ids| == |ps|
    ensures forall i :: 0 <= i < |ps| ==> ids[i] == ps[i].id
  {
    if ps == [] then [] else [ps[0].id] + IdList(ps[1..])
  }

  /** The ids of a list of products. */
  function Ids(ps: seq<Product>): set<ProductId>
    reads ps
  {
    SetOf(IdList(ps))
  }

  /** `order` without the ids in `gone`, the rest kept in order. */
  function WithoutAll(order: seq<ProductId>, gone: set<ProductId>): (r: seq<ProductId>)
    ensures forall y :: y in r <==> y in order && y !in gone
  {
    if order == [] then []
    else (if order[0] in gone then [] else [order[0]]) + WithoutAll(order[1..], gone)
  }

  /** Taking out the ids in `gone` works element by element: the rest keep their order and their repeats. */
  lemma {:induction false} WithoutAllConcat(a: seq<ProductId>, b: seq<ProductId>, gone: set<ProductId>)
    ensures WithoutAll(a + b, gone) == WithoutAll(a, gone) + WithoutAll(b, gone)
  {
    if a == [] {
      assert a + b == b;
    } else {
      assert (a + b)[0] == a[0];
      assert (a + b)[1..] == a[1..] + b;
      WithoutAllConcat(a[1..], b, gone);
    }
  }

  lemma {:induction false} WithoutNothing(order: seq<ProductId>)
    ensures WithoutAll(order, {}) == order
  {
    if order != [] {
      WithoutNothing(order[1..]);
    }
  }

  lemma {:induction false} WithoutOneMore(order: seq<ProductId>, gone: set<ProductId>, id: ProductId)
    ensures Without(WithoutAll(order, gone), id) == WithoutAll(order, gone + {id})
  {
    if order != [] {
      WithoutOneMore(order[1..], gone, id);
      var rest := WithoutAll(order[1..], gone);
      if order[0] in gone {
        assert WithoutAll(order, gone) == rest;
      } else {
        assert WithoutAll(order, gone) == [order[0]] + rest;
        assert ([order[0]] + rest)[1..] == rest;
      }
    }
  }

  /**
   * "s" or "sim", after trimming and lower-casing, confirms the removal: an answer
   * that confirms starts, once trimmed, with an "s" of either case and is one or
   * three characters long.
   */
  predicate Confirms(answer: string): (yes: bool)
    ensures yes ==> |Strip(answer)| in {1, 3} && (Strip(answer)[0] == 's' || Strip(answer)[0] == 'S')
  {
    Lower(Strip(answer)) == "s" || Lower(Strip(answer)) == "sim"
  }

  datatype RemovalOutcome =
    | NothingStored
    | NoneExpired
    | Cancelled(expired: seq<Product>)
    | Removed(expired: seq<Product>, count: nat)

  /**
   * `remove_expired_products`, given the answer typed at the confirmation prompt.
   * With an empty inventory, no expired product or no confirmation nothing changes.
   * Otherwise the id of every expired perishable product is removed in turn, and the
   * count is the number of those removals that found their id still present.
   */
  method RemoveExpiredProducts(inventory: Inventory, today: Day, answer: string) returns (outcome: RemovalOutcome)
    requires inventory.Valid()
    requires Expiration.Dated(Select(inventory.Values(), Perishable))
    modifies inventory
    ensures inventory.Valid()
    ensures outcome.NothingStored? <==> old(inventory.products) == map[]
    ensures outcome.NoneExpired? <==> old(inventory.products) != map[] && old(Select(inventory.Values(), ExpiredOn(today))) == []
    ensures outcome.Cancelled? ==> outcome.expired == old(Select(inventory.Values(), ExpiredOn(today))) && !Confirms(answer)
    ensures outcome.Removed? ==> outcome.expired == old(Select(inventory.Values(), ExpiredOn(today))) && outcome.expired != [] && Confirms(answer)
    ensures !outcome.Removed? ==> inventory.products == old(inventory.products) && inventory.order == old(inventory.order)
    ensures outcome.Removed? ==> inventory.products == old(inventory.products) - Ids(outcome.expired)
    ensures outcome.Removed? ==> inventory.order == WithoutAll(old(inventory.order), Ids(outcome.expired))
    ensures outcome.Removed? ==> outcome.count == |Ids(outcome.expired) * old(inventory.products).Keys|
  {
    if inventory.products == map[] {
      return NothingStored;
    }
    assert inventory.order != [] by {
      var k :| k in inventory.products;
      assert k in inventory.order;
    }
    var expired := Select(inventory.Values(), ExpiredOn(today));
    if expired == [] {
      return NoneExpired;
    }
    if !Confirms(answer) {
      return Cancelled(expired);
    }
    var removedCount := RemoveListed(inventory, expired);
    outcome := Removed(expired, removedCount);
  }

  /** The confirmed branch: the id of every listed product is removed, in the order of the list. */
  method RemoveListed(inventory: Inventory, ps: seq<Product>) returns (removedCount: nat)
    requires inventory.Valid()
    modifies inventory
    ensures inventory.Valid()
    ensures inventory.products == old(inventory.products) - Ids(ps)
    ensures inventory.order == WithoutAll(old(inventory.order), Ids(ps))
    ensures removedCount == |Ids(ps) * old(inventory.products).Keys|
  {
    var ids := IdList(ps);
    assert Ids(ps) == SetOf(ids);
    removedCount := RemoveEach(inventory, ids);
    assert Ids(ps) == SetOf(ids);
  }

  /**
   * The removal loop, over the ids of the listed products in their order: each id is
   * removed in turn, counting the removals that found it still present.
   */
  method RemoveEach(inventory: Inventory, ids: seq<ProductId>) returns (removedCount: nat)
    requires inventory.Valid()
    modifies inventory
    ensures inventory.Valid()
    ensures inventory.products == old(inventory.products) - SetOf(ids)
    ensures inventory.order == WithoutAll(old(inventory.order), SetOf(ids))
    ensures removedCount == |SetOf(ids) * old(inventory.products).Keys|
  {
    ghost var m0, order0 := inventory.products, inventory.order;
    removedCount := 0;
    var i := 0;
    assert SetOf(ids[..0]) == {};
    WithoutNothing(order0);
    while i < |ids|
      invariant 0 <= i <= |ids|
      invariant inventory.Valid()
      invariant inventory.products == m0 - SetOf(ids[..i])
      invariant inventory.order == WithoutAll(order0, SetOf(ids[..i]))
      invariant removedCount == |SetOf(ids[..i]) * m0.Keys|
    {
      removedCount := RemoveCounted(inventory, ids[i], removedCount, m0, order0, ids, i);
      i := i + 1;
    }
    assert ids[..i] == ids;
  }

  /**
   * One turn of the removal loop, stated against the map and key order the loop
   * started from and the ids the loop has gone through.
   */
  method RemoveCounted(inventory: Inventory, id: ProductId, count: nat,
                       ghost m0: map<ProductId, Product>, ghost order0: seq<ProductId>, ghost ids: seq<ProductId>, ghost i: nat)
    returns (removedCount: nat)
    requires i < |ids| && ids[i] == id
    requires inventory.Valid()
    requires inventory.products == m0 - SetOf(ids[..i])
    requires inventory.order == WithoutAll(order0, SetOf(ids[..i]))
    requires count == |SetOf(ids[..i]) * m0.Keys|
    modifies inventory
    ensures inventory.Valid()
    ensures inventory.products == m0 - SetOf(ids[..i + 1])
    ensures inventory.order == WithoutAll(order0, SetOf(ids[..i + 1]))
    ensures removedCount == |SetOf(ids[..i + 1]) * m0.Keys|
  {
    ghost var gone := SetOf(ids[..i]);
    SetSnoc(ids, i);
    RemovalStep(m0, order0, gone, id);
    CountStep(gone, m0.Keys, id);
    var present := inventory.RemoveProduct(id);
    removedCount := if present then count + 1 else count;
  }

  function SetOf(ids: seq<ProductId>): set<ProductId>
  {
    set x | x in ids
  }

  lemma SetSnoc(ids: seq<ProductId>, i: nat)
    requires i < |ids|
    ensures SetOf(ids[..i + 1]) == SetOf(ids[..i]) + {ids[i]}
  {
    assert ids[..i + 1] == ids[..i] + [ids[i]];
  }

  /** Removing one more id from a map and key order that already lack `gone`. */
  lemma RemovalStep(m: map<ProductId, Product>, order: seq<ProductId>, gone: set<ProductId>, id: ProductId)
    ensures (m - gone) - {id} == m - (gone + {id})
    ensures Without(WithoutAll(order, gone), id) == WithoutAll(order, gone + {id})
  {
    WithoutOneMore(order, gone, id);
  }

  /** Removing one more id counts once exactly when the id was stored and not removed before. */
  lemma CountStep(before: set<ProductId>, stored: set<ProductId>, id: ProductId)
    ensures |(before + {id}) * stored| == |before * stored| + (if id in stored && id !in before then 1 else 0)
  {
    if id in stored && id !in before {
      assert (before + {id}) * stored == (before * stored) + {id};
    } else {
      assert (before + {id}) * stored == before * stored;
    }
  }

  /** No two products of the list share an id. */
  predicate DistinctIds(ps: seq<Product>)
    reads ps
  {
    forall i, j :: 0 <= i < j < |ps| ==> ps[i].id != ps[j].id
  }

  lemma DistinctIdsCard(ps: seq<Product>)
    requires DistinctIds(ps)
    ensures |Ids(ps)| == |ps|
  {
    DistinctCard(IdList(ps));
  }

  lemma {:induction false} SelectDistinctIds(ps: seq<Product>, c: Criterion)
    requires DistinctIds(ps)
    ensures DistinctIds(Select(ps, c))
    ensures forall i :: 0 <= i < |Select(ps, c)| ==> Select(ps, c)[i] in ps
  {
    if ps != [] {
      SelectDistinctIds(ps[1..], c);
      if Matches(ps[0], c) {
        var r := Select(ps[1..], c);
        assert Select(ps, c) == [ps[0]] + r;
        forall j | 0 <= j < |r| ensures r[j].id != ps[0].id {
          var k :| 0 <= k < |ps[1..]| && ps[1..][k] == r[j];
          assert ps[k + 1] == r[j];
        }
      }
    }
  }

  /**
   * When every product is stored under its own id, the removal is exact: the ids
   * removed are the keys of exactly the expired perishable products, and every one of
   * their removals counts, so the count is the number of expired products found.
   */
  lemma ExpiredRemovalExact(inventory: Inventory, today: Day)
    requires inventory.Valid() && inventory.Keyed()
    ensures forall k :: k in inventory.products ==>
      (k in Ids(Select(inventory.Values(), ExpiredOn(today))) <==> Matches(inventory.products[k], ExpiredOn(today)))
    ensures Ids(Select(inventory.Values(), ExpiredOn(today))) <= inventory.products.Keys
    ensures |Ids(Select(inventory.Values(), ExpiredOn(today))) * inventory.products.Keys| == |Select(inventory.Values(), ExpiredOn(today))|
  {
    var vs := inventory.Values();
    var ex := Select(vs, ExpiredOn(today));
    assert DistinctIds(vs) by {
      assert forall i :: 0 <= i < |vs| ==> vs[i].id == inventory.order[i];
    }
    SelectDistinctIds(vs, ExpiredOn(today));
    DistinctIdsCard(ex);
    ExpiredIdsStored(inventory, today);
    ExpiredKeysListed(inventory, today);
    assert Ids(ex) * inventory.products.Keys == Ids(ex);
  }

  /** Every id taken from the expired products is the key of a stored expired product. */
  lemma ExpiredIdsStored(inventory: Inventory, today: Day)
    requires inventory.Valid() && inventory.Keyed()
    ensures forall x :: x in Ids(Select(inventory.Values(), ExpiredOn(today))) ==>
      x in inventory.products && Matches(inventory.products[x], ExpiredOn(today))
  {
    var vs := inventory.Values();
    var ex := Select(vs, ExpiredOn(today));
    forall x | x in Ids(ex) ensures x in inventory.products && Matches(inventory.products[x], ExpiredOn(today)) {
      var j :| 0 <= j < |ex| && ex[j].id == x;
      var i :| 0 <= i < |vs| && vs[i] == ex[j];
      assert inventory.products[inventory.order[i]] == ex[j];
    }
  }

  /** Every key of a stored expired product is among the ids taken from the expired products. */
  lemma ExpiredKeysListed(inventory: Inventory, today: Day)
    requires inventory.Valid() && inventory.Keyed()
    ensures forall k :: k in inventory.products && Matches(inventory.products[k], ExpiredOn(today)) ==>
      k in Ids(Select(inventory.Values(), ExpiredOn(today)))
  {
    var vs := inventory.Values();
    var m := inventory.products;
    var ex := Select(vs, ExpiredOn(today));
    forall k | k in m && Matches(m[k], ExpiredOn(today)) ensures k in Ids(ex) {
      var i :| 0 <= i < |inventory.order| && inventory.order[i] == k;
      assert vs[i] == m[k];
      SelectMember(vs, ExpiredOn(today), m[k]);
      var j :| 0 <= j < |ex| && ex[j] == m[k];
      assert ex[j].id == k;
    }
  }

  /** The answer to the option menu of `search_products`, with each option's prompts already validated. */
  datatype SearchRequest =
    | ByBarcode(barcode: string)
    | ByName(part: string)
    | ByBrand(part: string)
    | LowStock(threshold: Option<int>)   // None when the threshold prompt was cancelled
    | PriceRange(low: int, high: int)
    | PerishableOnly
    | NonPerishableOnly
    | OtherOption(option: int)           // any number but 1 to 7

  datatype SearchResult =
    | EmptyInventory
    | InvalidOption
    | InvalidPriceRange
    | Found(products: seq<Product>)

  /** The low-stock threshold used when its prompt is cancelled: an empty answer is refused and asked again. */
  const DefaultLowStock := 5

  /**
   * What the prompts of each option let through: a barcode of digits as its
   * validator returns it, a trimmed non-empty part of a name or brand, a positive
   * threshold and positive prices.
   */
  predicate ValidRequest(request: SearchRequest)
  {
    match request
    case ByBarcode(b) => b != [] && AllUnicodeDigits(b)
    case ByName(part) => ValidateNonEmptyString(part, "Nome") == Ok(part)
    case ByBrand(part) => ValidateNonEmptyString(part, "Marca") == Ok(part)
    case LowStock(t) => t.Some? ==> ValidatePositiveInteger(t.value, "Quantidade").Ok?
    case PriceRange(low, high) =>
      ValidatePositiveNumber(low, "Preço mínimo").Ok? && ValidatePositiveNumber(high, "Preço máximo").Ok?
    case OtherOption(option) => !(1 <= option <= 7)
    case _ => true
  }

  /** The test an option other than the barcode lookup applies to each stored product. */
  function CriterionOf(request: SearchRequest): Criterion
    requires !request.ByBarcode? && !request.OtherOption?
  {
    match request
    case ByName(part) => NameHas(part)
    case ByBrand(part) => BrandHas(part)
    case LowStock(t) => StockBelow(if t.Some? then t.value else DefaultLowStock)
    case PriceRange(low, high) => PriceWithin(low, high)
    case PerishableOnly => Perishable
    case NonPerishableOnly => NotPerishable
  }

  /**
   * What each option other than the barcode lookup keeps: a product is among the
   * results exactly when it is stored and its own fields pass the option's test.
   */
  lemma SearchSelects(vs: seq<Product>, request: SearchRequest, p: Product)
    requires !request.ByBarcode? && !request.OtherOption?
    ensures request.ByName? ==>
      (p in Select(vs, CriterionOf(request)) <==> p in vs && Contains(Lower(p.name), Lower(request.part)))
    ensures request.ByBrand? ==>
      (p in Select(vs, CriterionOf(request)) <==> p in vs && Contains(Lower(p.brand), Lower(request.part)))
    ensures request.LowStock? ==>
      (p in Select(vs, CriterionOf(request)) <==>
       p in vs && p.quantity < if request.threshold.Some? then request.threshold.value else DefaultLowStock)
    ensures request.PriceRange? ==>
      (p in Select(vs, CriterionOf(request)) <==> p in vs && request.low <= p.price <= request.high)
    ensures request.PerishableOnly? ==> (p in Select(vs, CriterionOf(request)) <==> p in vs && p.isPerishable)
    ensures request.NonPerishableOnly? ==> (p in Select(vs, CriterionOf(request)) <==> p in vs && !p.isPerishable)
  {
    SelectMember(vs, CriterionOf(request), p);
  }

  /**
   * `search_products`. An empty inventory is reported before the option is looked
   * at; an option outside the menu and a price range whose minimum exceeds its
   * maximum are errors. Otherwise the stored products meeting the option's test are
   * found, in insertion order; the barcode option finds at most the one product the
   * repository's lookup returns.
   */
  method SearchProducts(inventory: Inventory, request: SearchRequest) returns (r: SearchResult)
    requires inventory.Valid()
    requires ValidRequest(request)
    ensures r.EmptyInventory? <==> inventory.products == map[]
    ensures r.InvalidOption? <==> inventory.products != map[] && request.OtherOption?
    ensures r.InvalidPriceRange? <==> inventory.products != map[] && request.PriceRange? && request.low > request.high
    ensures r.Found? ==> forall i :: 0 <= i < |r.products| ==> r.products[i] in inventory.Values()
    ensures r.Found? && request.ByBarcode? ==>
      (r.products == [] <==> forall i :: 0 <= i < |inventory.order| ==> inventory.products[inventory.order[i]].barcode != request.barcode)
    ensures r.Found? && request.ByBarcode? ==> |r.products| <= 1
    ensures r.Found? && request.ByBarcode? && r.products != [] ==>
      exists i :: (0 <= i < |inventory.order| && r.products[0] == inventory.products[inventory.order[i]] &&
                   r.products[0].barcode == request.barcode &&
                   forall j :: 0 <= j < i ==> inventory.products[inventory.order[j]].barcode != request.barcode)
    ensures r.Found? && !request.ByBarcode? && !request.OtherOption? ==>
      r.products == Select(inventory.Values(), CriterionOf(request))
    ensures r.Found? && !request.ByBarcode? ==> |r.products| <= |inventory.order|
  {
    if inventory.products == map[] {
      return EmptyInventory;
    }
    var vs := inventory.Values();
    var c: Criterion;
    match request {
      case ByBarcode(b) =>
        var found := inventory.GetProductByBarcode(b);
        return Found(if found.Some? then [found.value] else []);
      case ByName(part) => c := NameHas(part);
      case ByBrand(part) => c := BrandHas(part);
      case LowStock(t) => c := StockBelow(if t.Some? then t.value else DefaultLowStock);
      case PriceRange(low, high) =>
        if low > high {
          return InvalidPriceRange;
        }
        c := PriceWithin(low, high);
      case PerishableOnly => c := Perishable;
      case NonPerishableOnly => c := NotPerishable;
      case OtherOption(_) => return InvalidOption;
    }
    assert c == CriterionOf(request);
    r := Found(Select(vs, c));
  }
}

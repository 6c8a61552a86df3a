/**
 * `repositories/sales_repository.py`: the append-only ledger of sales and the
 * record format it saves and loads. A record carries the sale's id, seller, buyer
 * CPF and date, and one (product id, quantity) pair per item; loading a record
 * looks every product id up in the product repository and silently drops the
 * items whose id is not found there. Ids and dates go through `str`/`UUID` and
 * `isoformat`/`fromisoformat` in the source; here they are kept as they are.
 */
module SalesRepository {
  import opened Wrappers
  import opened Products
  import opened Sales
  import opened ProductRepository

  datatype ItemRecord = ItemRecord(productId: ProductId, quantity: int)

  datatype SaleRecord = SaleRecord(
    id: string,
    sellerName: string,
    buyerCpf: string,
    saleDate: Instant,
    items: seq<ItemRecord>)

  /** One record per item, in item order, naming the product by its id at the time of encoding. */
  function EncodeItems(items: seq<SaleItem>): (recs: seq<ItemRecord>)
    reads ProductsOf(items)
    ensures |recs| == |items|
    ensures forall i :: 0 <= i < |items| ==> recs[i].productId == items[i].product.id
    ensures forall i :: 0 <= i < |items| ==> recs[i].quantity == items[i].quantity
  {
    if items == [] then []
    else [ItemRecord(items[0].product.id, items[0].quantity)] + EncodeItems(items[1..])
  }

  /** `sale_to_dict`: the sale's own fields, and its items as (product id, quantity) records. */
  function SaleToDict(s: Sale): (r: SaleRecord)
    reads ProductsOf(s.items)
    ensures r.id == s.id && r.sellerName == s.sellerName
    ensures r.buyerCpf == s.buyerCpf && r.saleDate == s.saleDate
    ensures |r.items| == |s.items|
    ensures forall i :: 0 <= i < |s.items| ==> r.items[i] == ItemRecord(s.items[i].product.id, s.items[i].quantity)
  {
    SaleRecord(s.id, s.sellerName, s.buyerCpf, s.saleDate, EncodeItems(s.items))
  }

  /** The items a record list decodes to: the product stored under each id that is found, the rest dropped. */
  function DecodeItems(recs: seq<ItemRecord>, m: map<ProductId, Product>): (items: seq<SaleItem>)
    ensures |items| <= |recs|
    ensures forall i :: 0 <= i < |items| ==> items[i].product in m.Values
  {
    if recs == [] then []
    else
      (if recs[0].productId in m then [SaleItem(m[recs[0].productId], recs[0].quantity)] else [])
      + DecodeItems(recs[1..], m)
  }

  /** The sale a record decodes to; the id is given, so it is kept rather than a fresh one drawn. */
  function DecodeSale(data: SaleRecord, m: map<ProductId, Product>): (s: Sale)
    ensures s.id == data.id && s.sellerName == data.sellerName && s.buyerCpf == data.buyerCpf && s.saleDate == data.saleDate
    ensures |s.items| <= |data.items|
    ensures forall i :: 0 <= i < |s.items| ==> s.items[i].product in m.Values
  {
    Sale(data.id, DecodeItems(data.items, m), data.sellerName, data.buyerCpf, data.saleDate)
  }

  function DecodeAll(data: seq<SaleRecord>, m: map<ProductId, Product>): (sales: seq<Sale>)
    ensures |sales| == |data|
    ensures forall i :: 0 <= i < |data| ==> sales[i] == DecodeSale(data[i], m)
  {
    seq(|data|, i requires 0 <= i < |data| => DecodeSale(data[i], m))
  }

  /** The records whose product id is found, in their original order: an independent statement of the filter. */
  function Resolvable(recs: seq<ItemRecord>, m: map<ProductId, Product>): (r: seq<ItemRecord>)
    ensures forall i :: 0 <= i < |r| ==> r[i] in recs && r[i].productId in m
    ensures forall i :: 0 <= i < |recs| && recs[i].productId in m ==> recs[i] in r
  {
    if recs == [] then []
    else if recs[0].productId in m then [recs[0]] + Resolvable(recs[1..], m)
    else Resolvable(recs[1..], m)
  }

  /** The filter works record by record: the kept records keep their order and their repeats. */
  lemma {:induction false} ResolvableConcat(a: seq<ItemRecord>, b: seq<ItemRecord>, m: map<ProductId, Product>)
    ensures Resolvable(a + b, m) == Resolvable(a, m) + Resolvable(b, m)
  {
    if a == [] {
      assert a + b == b;
    } else {
      assert (a + b)[0] == a[0];
      assert (a + b)[1..] == a[1..] + b;
      ResolvableConcat(a[1..], b, m);
    }
  }

  lemma {:induction false} DecodeItemsConcat(a: seq<ItemRecord>, b: seq<ItemRecord>, m: map<ProductId, Product>)
    ensures DecodeItems(a + b, m) == DecodeItems(a, m) + DecodeItems(b, m)
  {
    if a == [] {
      assert a + b == b;
    } else {
      assert (a + b)[1..] == a[1..] + b;
      DecodeItemsConcat(a[1..], b, m);
    }
  }

  /**
   * `dict_to_sale` keeps exactly the resolvable records, in order: the i-th decoded
   * item is the product stored under the i-th resolvable id, with that record's quantity.
   */
  lemma {:induction false} DecodeKeepsResolvable(recs: seq<ItemRecord>, m: map<ProductId, Product>)
    ensures |DecodeItems(recs, m)| == |Resolvable(recs, m)|
    ensures forall i :: 0 <= i < |Resolvable(recs, m)| ==>
      DecodeItems(recs, m)[i] == SaleItem(m[Resolvable(recs, m)[i].productId], Resolvable(recs, m)[i].quantity)
  {
    if recs != [] {
      DecodeKeepsResolvable(recs[1..], m);
      var r, d := Resolvable(recs, m), DecodeItems(recs, m);
      var r', d' := Resolvable(recs[1..], m), DecodeItems(recs[1..], m);
      if recs[0].productId in m {
        assert r == [recs[0]] + r' && d == [SaleItem(m[recs[0].productId], recs[0].quantity)] + d';
        forall i | 0 < i < |r| ensures d[i] == SaleItem(m[r[i].productId], r[i].quantity) {
          assert d[i] == d'[i - 1] && r[i] == r'[i - 1];
        }
      } else {
        assert r == r' && d == d';
      }
    }
  }

  /** When every product id resolves, nothing is dropped. */
  lemma {:induction false} DecodeDropsNothing(recs: seq<ItemRecord>, m: map<ProductId, Product>)
    requires forall i :: 0 <= i < |recs| ==> recs[i].productId in m
    ensures |DecodeItems(recs, m)| == |recs|
    ensures forall i :: 0 <= i < |recs| ==> DecodeItems(recs, m)[i] == SaleItem(m[recs[i].productId], recs[i].quantity)
  {
    if recs != [] {
      DecodeDropsNothing(recs[1..], m);
    }
  }

  /** When no product id resolves, every item is dropped. */
  lemma {:induction false} DecodeDropsUnknown(recs: seq<ItemRecord>, m: map<ProductId, Product>)
    requires forall i :: 0 <= i < |recs| ==> recs[i].productId !in m
    ensures DecodeItems(recs, m) == []
  {
    if recs != [] {
      DecodeDropsUnknown(recs[1..], m);
    }
  }

  /**
   * Round trip with the same objects: if each item's product is the one stored under
   * its id, decoding the encoding gives the sale back exactly.
   */
  lemma DecodeEncode(s: Sale, m: map<ProductId, Product>)
    requires forall i :: 0 <= i < |s.items| ==> s.items[i].product.id in m && m[s.items[i].product.id] == s.items[i].product
    ensures DecodeSale(SaleToDict(s), m) == s
  {
    var recs := SaleToDict(s).items;
    DecodeDropsNothing(recs, m);
    var items := DecodeItems(recs, m);
    assert |items| == |s.items|;
    forall i | 0 <= i < |s.items| ensures items[i] == s.items[i] {
    }
  }

  /**
   * Round trip by id: if every item's product id resolves to a product with that id,
   * the decoded sale keeps the id, seller, CPF, date and the (product id, quantity)
   * sequence of the original.
   */
  lemma RoundTripRecords(s: Sale, m: map<ProductId, Product>)
    requires forall i :: 0 <= i < |s.items| ==> s.items[i].product.id in m && m[s.items[i].product.id].id == s.items[i].product.id
    ensures SaleToDict(DecodeSale(SaleToDict(s), m)) == SaleToDict(s)
  {
    var rec := SaleToDict(s);
    DecodeDropsNothing(rec.items, m);
    var back := SaleToDict(DecodeSale(rec, m));
    assert |back.items| == |rec.items|;
    forall i | 0 <= i < |rec.items| ensures back.items[i] == rec.items[i] {
    }
  }

  class SalesLedger {
    var sales: seq<Sale>

    /** A new ledger holds no sales. */
    constructor ()
      ensures sales == []
    {
      sales := [];
    }

    /**
     * `make_sale(s)`: every sale object is truthy in Python, so any sale, one with no
     * items included, is appended and reported as made; only None is refused.
     */
    method MakeSale(sale: Option<Sale>) returns (made: bool)
      modifies this
      ensures made <==> sale.Some?
      ensures sales == if sale.Some? then old(sales) + [sale.value] else old(sales)
    {
      if sale.Some? {
        sales := sales + [sale.value];
        made := true;
      } else {
        made := false;
      }
    }

    /** `dict_to_sale`: looks up every item's product id, keeping the items that resolve. */
    method DictToSale(data: SaleRecord, inventory: Inventory) returns (s: Sale)
      requires inventory.Valid()
      ensures s == DecodeSale(data, inventory.products)
    {
      var items: seq<SaleItem> := [];
      var i := 0;
      while i < |data.items|
        invariant 0 <= i <= |data.items|
        invariant items == DecodeItems(data.items[..i], inventory.products)
      {
        var record := data.items[i];
        var product := inventory.GetProduct(record.productId);
        assert data.items[..i + 1] == data.items[..i] + [record];
        DecodeItemsConcat(data.items[..i], [record], inventory.products);
        if product.Some? {
          items := items + [SaleItem(product.value, record.quantity)];
        }
        i := i + 1;
      }
      assert data.items[..i] == data.items;
      s := Sale(data.id, items, data.sellerName, data.buyerCpf, data.saleDate);
    }

    /**
     * The record loop of `load_from_file`, given what the file held (None when it is
     * missing): no records leave the ledger as it was; otherwise one decoded sale is
     * appended per record, in order.
     */
    method LoadFromFile(data: Option<seq<SaleRecord>>, inventory: Inventory)
      requires inventory.Valid()
      modifies this
      ensures data.None? || data.value == [] ==> sales == old(sales)
      ensures data.Some? ==> sales == old(sales) + DecodeAll(data.value, inventory.products)
    {
      if data.None? || data.value == [] {
        return;
      }
      var records := data.value;
      var i := 0;
      while i < |records|
        invariant 0 <= i <= |records|
        invariant sales == old(sales) + DecodeAll(records[..i], inventory.products)
      {
        var sale := DictToSale(records[i], inventory);
        var _ := MakeSale(Some(sale));
        assert DecodeAll(records[..i + 1], inventory.products) == DecodeAll(records[..i], inventory.products) + [sale];
        i := i + 1;
      }
      assert records[..i] == records;
    }
  }
}

/**
 * `SaleItem` and `Sale` of `models/sale_item.py` and `models/sale.py`. Both are set
 * once by their constructors. An item holds a reference to the product itself,
 * not a copy, so its subtotal is read from the product's current price.
 */
module Sales {
  import opened Wrappers
  import opened Products

  datatype SaleItem = SaleItem(product: Product, quantity: int)
  {
    /** The product's price at the time of the call times the quantity sold. */
    function Subtotal(): (cents: int)
      reads product
      ensures quantity == 0 ==> cents == 0
      ensures quantity > 0 && product.price > 0 ==> cents >= product.price
    {
      product.price * quantity
    }
  }

  datatype Sale = Sale(
    id: string,
    items: seq<SaleItem>,
    sellerName: string,
    buyerCpf: string,
    saleDate: Instant)

  /** The products the items of a sale refer to: what a total reads. */
  function ProductsOf(items: seq<SaleItem>): set<Product>
  {
    set i | i in items :: i.product
  }

  /**
   * The constructor of `Sale`: a given id is kept, and without one the fresh id
   * (a new random UUID in the source) is used; the other arguments are stored as given.
   */
  function NewSale(items: seq<SaleItem>, sellerName: string, buyerCpf: string, saleDate: Instant,
                   id: Option<string>, freshId: string): (s: Sale)
    ensures id.Some? ==> s.id == id.value
    ensures id.None? ==> s.id == freshId
    ensures s.items == items && s.sellerName == sellerName
    ensures s.buyerCpf == buyerCpf && s.saleDate == saleDate
  {
    Sale(if id.Some? then id.value else freshId, items, sellerName, buyerCpf, saleDate)
  }

  /** The sum of the subtotals of `items`, item by item from the first. */
  function Total(items: seq<SaleItem>): (cents: int)
    reads ProductsOf(items)
    ensures items == [] ==> cents == 0
  {
    if items == [] then 0 else items[0].Subtotal() + Total(items[1..])
  }

  /** Any split of the item list adds up: the total of a concatenation is the sum of the totals. */
  lemma {:induction false} TotalConcat(a: seq<SaleItem>, b: seq<SaleItem>)
    ensures Total(a + b) == Total(a) + Total(b)
  {
    if a == [] {
      assert a + b == b;
    } else {
      assert (a + b)[1..] == a[1..] + b;
      TotalConcat(a[1..], b);
    }
  }

  /** A total made only of items with non-negative price and quantity is non-negative. */
  lemma {:induction false} TotalNonNegative(items: seq<SaleItem>)
    requires forall i :: 0 <= i < |items| ==> items[i].product.price >= 0 && items[i].quantity >= 0
    ensures Total(items) >= 0
  {
    if items != [] {
      TotalNonNegative(items[1..]);
    }
  }

  /**
   * Because an item shares its product, changing the price afterwards changes the
   * subtotal: it becomes the new price times the quantity.
   */
  method RepriceSoldProduct(item: SaleItem, newPrice: int) returns (subtotal: int)
    modifies item.product
    ensures item.product.Data() == old(item.product.Data()).(price := newPrice)
    ensures subtotal == newPrice * item.quantity
  {
    item.product.SetPrice(newPrice);
    subtotal := item.Subtotal();
  }
}

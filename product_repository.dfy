/**
 * `repositories/product_repository.py`: one dictionary from product id to product,
 * changed in place by insert, update and remove. A Python dictionary iterates in
 * insertion order; the model keeps that order as a sequence of keys beside the map.
 * Assigning to a key already present keeps its place, deleting a key drops it.
 */
module ProductRepository {
  import opened Wrappers
  import opened Text
  import opened Products
  import opened Queries

  /** The keys in iteration order: each key of the map exactly once. */
  ghost predicate Wellformed(m: map<ProductId, Product>, order: seq<ProductId>)
  {
    Distinct(order) && forall k :: k in m <==> k in order
  }

  /** `dict.values()`: the stored products in the order of their keys. */
  function ValuesOf(m: map<ProductId, Product>, order: seq<ProductId>): (vs: seq<Product>)
    requires forall k :: k in order ==> k in m
    ensures |vs| == |order|
    ensures forall i :: 0 <= i < |order| ==> vs[i] == m[order[i]]
  {
    seq(|order|, i requires 0 <= i < |order| => m[order[i]])
  }

  /** `order` with every occurrence of `x` taken out, the rest kept in order. */
  function Without(s: seq<ProductId>, x: ProductId): (r: seq<ProductId>)
    ensures |r| <= |s|
    ensures forall y :: y in r <==> y in s && y != x
  {
    if s == [] then [] else (if s[0] == x then [] else [s[0]]) + Without(s[1..], x)
  }

  /** Taking out `x` works element by element: the other ids keep their order and their repeats. */
  lemma {:induction false} WithoutConcat(a: seq<ProductId>, b: seq<ProductId>, x: ProductId)
    ensures Without(a + b, x) == Without(a, x) + Without(b, x)
  {
    if a == [] {
      assert a + b == b;
    } else {
      assert (a + b)[0] == a[0];
      assert (a + b)[1..] == a[1..] + b;
      WithoutConcat(a[1..], b, x);
    }
  }

  lemma {:induction false} WithoutDistinct(s: seq<ProductId>, x: ProductId)
    requires Distinct(s)
    ensures Distinct(Without(s, x))
  {
    if s != [] {
      WithoutDistinct(s[1..], x);
      assert s[0] !in s[1..];
    }
  }

  lemma {:induction false} DistinctCard(s: seq<ProductId>)
    requires Distinct(s)
    ensures |set x | x in s| == |s|
  {
    if s != [] {
      DistinctCard(s[1..]);
      assert (set x | x in s) == {s[0]} + (set x | x in s[1..]);
      assert s[0] !in s[1..];
    }
  }

  /**
   * `list_products()`: the values are exactly the stored products, one per key,
   * so there are as many of them as keys in the dictionary.
   */
  lemma StoredValues(m: map<ProductId, Product>, order: seq<ProductId>)
    requires Wellformed(m, order)
    ensures |ValuesOf(m, order)| == |m|
    ensures forall p :: p in ValuesOf(m, order) <==> p in m.Values
  {
    DistinctCard(order);
    assert (set x | x in order) == m.Keys;
    var vs := ValuesOf(m, order);
    forall p | p in m.Values ensures p in vs {
      var k :| k in m && m[k] == p;
      var i :| 0 <= i < |order| && order[i] == k;
      assert vs[i] == p;
    }
  }

  class Inventory {
    var products: map<ProductId, Product>
    var order: seq<ProductId>

    ghost predicate Valid()
      reads this
    {
      Wellformed(products, order)
    }

    /** The product stored under `k` has `k` as its id: what inserting `p` under `p.id` gives, and what `set_id` can break. */
    predicate Keyed()
      reads this, products.Values
    {
      forall k :: k in products ==> products[k].id == k
    }

    /** The module starts with an empty dictionary. */
    constructor ()
      ensures Valid() && products == map[] && order == []
    {
      products := map[];
      order := [];
    }

    function Values(): (vs: seq<Product>)
      reads this
      requires Valid()
    {
      ValuesOf(products, order)
    }

    /** `get_product(id)`: the product stored under `id`, or None. */
    function GetProduct(id: ProductId): (r: Option<Product>)
      reads this
      ensures r.Some? <==> id in products
      ensures r.Some? ==> r.value == products[id]
    {
      if id in products then Some(products[id]) else None
    }

    /** `insert_product(p)` stores `p` under its own id; a new key goes last, a known one keeps its place. */
    method InsertProduct(p: Product)
      requires Valid()
      modifies this
      ensures Valid()
      ensures products == old(products)[p.id := p]
      ensures order == if p.id in old(products) then old(order) else old(order) + [p.id]
      ensures GetProduct(p.id) == Some(p)
      ensures forall k :: k != p.id ==> GetProduct(k) == old(GetProduct(k))
    {
      if p.id !in products {
        order := order + [p.id];
      }
      products := products[p.id := p];
    }

    /** `update_product(id, p)` is an upsert: it always stores `p` under `id` and returns `p`. */
    method UpdateProduct(id: ProductId, p: Product) returns (r: Product)
      requires Valid()
      modifies this
      ensures Valid()
      ensures r == p
      ensures products == old(products)[id := p]
      ensures order == if id in old(products) then old(order) else old(order) + [id]
    {
      if id !in products {
        order := order + [id];
      }
      products := products[id := p];
      r := p;
    }

    /** `remove_product(id)` reports whether `id` was present; afterwards it is not, and every other entry is as before. */
    method RemoveProduct(id: ProductId) returns (removed: bool)
      requires Valid()
      modifies this
      ensures Valid()
      ensures removed <==> id in old(products)
      ensures products == old(products) - {id}
      ensures order == Without(old(order), id)
    {
      removed := id in products;
      if removed {
        WithoutDistinct(order, id);
        products := products - {id};
        order := Without(order, id);
      } else {
        WithoutDistinct(order, id);
        order := Without(order, id);
        assert products == products - {id};
      }
    }

    /** The loop shared by the lookups: the first stored product, in insertion order, that meets `c`. */
    method Find(c: Criterion) returns (r: Option<Product>)
      requires Valid()
      ensures r.None? <==> FirstMatching(Values(), c).None?
      ensures r.Some? ==> r.value == Values()[FirstMatching(Values(), c).value]
    {
      ghost var vs := Values();
      var i := 0;
      while i < |order|
        invariant 0 <= i <= |order|
        invariant forall j :: 0 <= j < i ==> !Matches(vs[j], c)
      {
        var p := products[order[i]];
        assert vs[i] == p;
        if Matches(p, c) {
          FirstMatchingAt(vs, c, i);
          return Some(p);
        }
        i := i + 1;
      }
      assert forall j :: 0 <= j < |vs| ==> !Matches(vs[j], c);
      return None;
    }

    /**
     * `get_product_by_barcode(b)`: the first product in insertion order whose barcode
     * is `b`, and None exactly when no stored product has that barcode.
     */
    method GetProductByBarcode(barcode: string) returns (r: Option<Product>)
      requires Valid()
      ensures r.None? <==> forall i :: 0 <= i < |order| ==> products[order[i]].barcode != barcode
      ensures r.Some? ==> exists i :: (0 <= i < |order| && r.value == products[order[i]] &&
                                       r.value.barcode == barcode &&
                                       forall j :: 0 <= j < i ==> products[order[j]].barcode != barcode)
    {
      r := Find(BarcodeIs(barcode));
      if r.Some? {
        var k := FirstMatching(Values(), BarcodeIs(barcode)).value;
        forall j | 0 <= j < k
          ensures products[order[j]].barcode != barcode
        {
          assert !Matches(Values()[j], BarcodeIs(barcode));
        }
        assert r.value == products[order[k]];
      } else {
        assert forall j :: 0 <= j < |order| ==> !Matches(Values()[j], BarcodeIs(barcode));
      }
    }

    /**
     * `get_product_by_name(n)` as written: the first product whose stored name equals
     * `n` lower-cased. Only the query is lower-cased, not the stored name.
     */
    method GetProductByName(name: string) returns (r: Option<Product>)
      requires Valid()
      ensures r.None? <==> forall i :: 0 <= i < |order| ==> products[order[i]].name != Lower(name)
      ensures r.Some? ==> r.value in Values() && r.value.name == Lower(name)
      ensures r.Some? ==> exists i :: (0 <= i < |order| && r.value == products[order[i]] &&
                                       forall j :: 0 <= j < i ==> products[order[j]].name != Lower(name))
    {
      r := Find(NameIs(Lower(name)));
      if r.Some? {
        var k := FirstMatching(Values(), NameIs(Lower(name))).value;
        forall j | 0 <= j < k
          ensures products[order[j]].name != Lower(name)
        {
          assert !Matches(Values()[j], NameIs(Lower(name)));
        }
        assert r.value == products[order[k]];
      } else {
        assert forall j :: 0 <= j < |order| ==> !Matches(Values()[j], NameIs(Lower(name)));
      }
    }

    /**
     * The lookup by name with both sides lower-cased: the first product whose name
     * equals `n` ignoring case, found whenever some stored product has that name.
     */
    method GetProductByNameIgnoringCase(name: string) returns (r: Option<Product>)
      requires Valid()
      ensures r.None? <==> forall i :: 0 <= i < |order| ==> Lower(products[order[i]].name) != Lower(name)
      ensures r.Some? ==> r.value in Values() && Lower(r.value.name) == Lower(name)
      ensures r.Some? ==> exists i :: (0 <= i < |order| && r.value == products[order[i]] &&
                                       forall j :: 0 <= j < i ==> Lower(products[order[j]].name) != Lower(name))
      ensures (exists i :: 0 <= i < |order| && products[order[i]].name == name) ==> r.Some?
    {
      r := Find(NameIgnoringCase(name));
      if r.Some? {
        var k := FirstMatching(Values(), NameIgnoringCase(name)).value;
        forall j | 0 <= j < k
          ensures Lower(products[order[j]].name) != Lower(name)
        {
          assert !Matches(Values()[j], NameIgnoringCase(name));
        }
        assert r.value == products[order[k]];
      } else {
        forall j | 0 <= j < |order|
          ensures Lower(products[order[j]].name) != Lower(name)
        {
          assert !Matches(Values()[j], NameIgnoringCase(name));
        }
      }
    }

    /** `list_products_by_brand(b)`: the stored products whose brand equals `b` ignoring case, in insertion order. */
    function ListProductsByBrand(brand: string): (r: seq<Product>)
      reads this, products.Values
      requires Valid()
      ensures forall i :: 0 <= i < |r| ==> r[i] in Values() && Lower(r[i].brand) == Lower(brand)
      ensures forall i :: 0 <= i < |order| && Lower(products[order[i]].brand) == Lower(brand) ==> products[order[i]] in r
      ensures r == Select(Values(), SameBrand(brand))
    {
      var vs := Values();
      assert forall i :: 0 <= i < |vs| ==> vs[i] in products.Values;
      var r := Select(vs, SameBrand(brand));
      assert forall i :: 0 <= i < |order| ==> vs[i] == products[order[i]];
      r
    }
  }

  /** A stored name with an upper-case letter never equals a lower-cased query. */
  lemma UpperCaseNameNeverMatches(storedName: string, query: string, i: nat)
    requires i < |storedName| && IsUpper(storedName[i])
    ensures storedName != Lower(query)
  {
    if |storedName| == |Lower(query)| {
      LowerHasNoUpper(query, i);
    }
  }

  /** A product named "Arroz" is not found by the query "Arroz", nor by any other. */
  lemma CapitalisedNameNotFound(query: string)
    ensures "Arroz" != Lower(query)
  {
    UpperCaseNameNeverMatches("Arroz", query, 0);
  }

  /** An inventory holding one product, named "Arroz". */
  method ArrozOnly() returns (inventory: Inventory, p: Product)
    ensures fresh(inventory) && inventory.Valid()
    ensures inventory.order == ["1"] && inventory.products == map["1" := p] && inventory.Values() == [p]
    ensures p.name == "Arroz"
  {
    inventory := new Inventory();
    p := new Product("1", "Arroz", "Tipo 1", 2599, "Tio João", 10, false, None, "7891234567890", 0, 0);
    inventory.InsertProduct(p);
    assert inventory.Values() == [p];
  }

  /**
   * The lookup by name as written misses the only stored product, named "Arroz",
   * even when asked for "Arroz"; the lookup ignoring case finds it.
   */
  method CapitalisedNameLookup() returns (asWritten: Option<Product>, ignoringCase: Option<Product>)
    ensures asWritten.None?
    ensures ignoringCase.Some? && ignoringCase.value.name == "Arroz"
  {
    var inventory, p := ArrozOnly();
    CapitalisedNameNotFound("Arroz");
    asWritten := inventory.GetProductByName("Arroz");
    ignoringCase := inventory.GetProductByNameIgnoringCase("Arroz");
    assert ignoringCase.Some? by {
      assert inventory.products[inventory.order[0]].name == "Arroz";
    }
    assert ignoringCase.value in [p];
  }
}

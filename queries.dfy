/**
 * The list comprehensions over `inventory.values()` that the repository and the
 * service filter products with. `Select` keeps, in order, the products meeting one
 * criterion; each criterion is the test written in the comprehension.
 */
module Queries {
  import opened Wrappers
  import opened Text
  import opened Products

  datatype Criterion =
    | SameBrand(brand: string)         // brand equal ignoring case
    | NameHas(part: string)            // part of the name, ignoring case
    | BrandHas(part: string)           // part of the brand, ignoring case
    | StockBelow(threshold: int)       // quantity below the threshold
    | PriceWithin(low: int, high: int) // price between both bounds, inclusive
    | Perishable
    | NotPerishable
    | ExpiredOn(today: Day)            // perishable, dated and past its date
    | BarcodeIs(barcode: string)       // barcode equal, exactly
    | NameIs(name: string)             // name equal, exactly
    | NameIgnoringCase(name: string)   // name equal ignoring case

  predicate Matches(p: Product, c: Criterion)
    reads p
  {
    match c
    case SameBrand(b) => Lower(p.brand) == Lower(b)
    case NameHas(part) => Contains(Lower(p.name), Lower(part))
    case BrandHas(part) => Contains(Lower(p.brand), Lower(part))
    case StockBelow(t) => p.quantity < t
    case PriceWithin(lo, hi) => lo <= p.price <= hi
    case Perishable => p.isPerishable
    case NotPerishable => !p.isPerishable
    case ExpiredOn(today) => p.isPerishable && p.expirationDate.Some? && p.IsExpired(today)
    case BarcodeIs(b) => p.barcode == b
    case NameIs(n) => p.name == n
    case NameIgnoringCase(n) => Lower(p.name) == Lower(n)
  }

  /** The products of `ps` that meet `c`, in the order of `ps`. */
  function Select(ps: seq<Product>, c: Criterion): (r: seq<Product>)
    reads ps
    ensures |r| <= |ps|
    ensures forall i :: 0 <= i < |r| ==> r[i] in ps && Matches(r[i], c)
    ensures forall i :: 0 <= i < |ps| && Matches(ps[i], c) ==> ps[i] in r
  {
    if ps == [] then []
    else if Matches(ps[0], c) then [ps[0]] + Select(ps[1..], c)
    else Select(ps[1..], c)
  }

  lemma SelectMember(ps: seq<Product>, c: Criterion, p: Product)
    ensures p in Select(ps, c) <==> p in ps && Matches(p, c)
  {
    if p in ps && Matches(p, c) {
      var i :| 0 <= i < |ps| && ps[i] == p;
    }
  }

  /** Selection keeps order: selecting from a concatenation concatenates the selections. */
  lemma {:induction false} SelectConcat(a: seq<Product>, b: seq<Product>, c: Criterion)
    ensures Select(a + b, c) == Select(a, c) + Select(b, c)
  {
    if a == [] {
      assert a + b == b;
    } else {
      assert (a + b)[0] == a[0];
      assert (a + b)[1..] == a[1..] + b;
      SelectConcat(a[1..], b, c);
      if Matches(a[0], c) {
        calc {
          Select(a + b, c);
          [a[0]] + Select(a[1..] + b, c);
          [a[0]] + (Select(a[1..], c) + Select(b, c));
          ([a[0]] + Select(a[1..], c)) + Select(b, c);
        }
      }
    }
  }


  /** A product selected from a list without repetitions occurs once in the selection as well. */
  lemma {:induction false} SelectDistinct(ps: seq<Product>, c: Criterion)
    requires Distinct(ps)
    ensures Distinct(Select(ps, c))
  {
    if ps != [] {
      SelectDistinct(ps[1..], c);
    }
  }

  /** Perishable and non-perishable products together make up the whole list, each exactly once. */
  lemma {:induction false} PerishablePartition(ps: seq<Product>)
    ensures |Select(ps, Perishable)| + |Select(ps, NotPerishable)| == |ps|
    ensures forall p :: p in ps <==> (p in Select(ps, Perishable) || p in Select(ps, NotPerishable))
    ensures forall p :: !(p in Select(ps, Perishable) && p in Select(ps, NotPerishable))
  {
    if ps != [] {
      PerishablePartition(ps[1..]);
    }
  }

  predicate Distinct<T(==)>(s: seq<T>)
  {
    forall i, j :: 0 <= i < j < |s| ==> s[i] != s[j]
  }

  /** The position of the first product of `ps` that meets `c`, if any: what the lookup loops return early with. */
  function FirstMatching(ps: seq<Product>, c: Criterion): (r: Option<nat>)
    reads ps
    ensures r.Some? ==> r.value < |ps| && Matches(ps[r.value], c)
    ensures r.Some? ==> forall j :: 0 <= j < r.value ==> !Matches(ps[j], c)
    ensures r.None? <==> forall j :: 0 <= j < |ps| ==> !Matches(ps[j], c)
  {
    if ps == [] then None
    else if Matches(ps[0], c) then Some(0)
    else
      var rest := FirstMatching(ps[1..], c);
      if rest.Some? then Some(rest.value + 1) else None
  }

  /** The first match is the one no earlier product precedes. */
  lemma FirstMatchingAt(ps: seq<Product>, c: Criterion, i: nat)
    requires i < |ps| && Matches(ps[i], c)
    requires forall j :: 0 <= j < i ==> !Matches(ps[j], c)
    ensures FirstMatching(ps, c) == Some(i)
  {
    assert FirstMatching(ps, c).Some? by {
      assert !(forall j :: 0 <= j < |ps| ==> !Matches(ps[j], c));
    }
  }
}

/**
 * The sales aggregation of `generate_sales_report` and `generate_sales_text_report`
 * in `services/inventory_service.py`: a running total of units sold, and a dictionary
 * from a product key to the units sold under it. The first report keys by
 * (barcode, name) through a `defaultdict(int)`, the second by name through an
 * explicit "present? add : set"; both add up the same way and both keep their keys in
 * the order they were first seen, as Python dictionaries do.
 */
module Aggregation {
  import opened Products
  import opened Sales
  import opened Queries

  /** A summary dictionary: its keys in insertion order, and the units under each. */
  datatype Tally<K> = Tally(keys: seq<K>, units: map<K, int>)

  /** `summary[k] += q` on a `defaultdict(int)`, equally "add if present, else set to q": a new key goes last. */
  function Bump<K>(t: Tally<K>, k: K, q: int): Tally<K>
  {
    if k in t.units then t.(units := t.units[k := t.units[k] + q])
    else Tally(t.keys + [k], t.units[k := q])
  }

  /** The summary after adding up every (key, units) line in order; it has at most one key per line. */
  function TallyOf<K>(lines: seq<(K, int)>): (t: Tally<K>)
    ensures |t.keys| <= |lines|
  {
    if lines == [] then Tally([], map[])
    else Bump(TallyOf(lines[..|lines| - 1]), lines[|lines| - 1].0, lines[|lines| - 1].1)
  }

  /** The units of all lines. */
  function LineSum<K>(lines: seq<(K, int)>): int
  {
    if lines == [] then 0 else LineSum(lines[..|lines| - 1]) + lines[|lines| - 1].1
  }

  /** The units of the lines with key `k`. */
  function UnitsFor<K(==)>(lines: seq<(K, int)>, k: K): int
  {
    if lines == [] then 0
    else UnitsFor(lines[..|lines| - 1], k) + (if lines[|lines| - 1].0 == k then lines[|lines| - 1].1 else 0)
  }

  predicate KeyIn<K(==)>(lines: seq<(K, int)>, k: K)
  {
    exists i :: 0 <= i < |lines| && lines[i].0 == k
  }

  /** Where key `k` first occurs among the lines. */
  function FirstAt<K(==)>(lines: seq<(K, int)>, k: K): (i: nat)
    requires KeyIn(lines, k)
    ensures i < |lines| && lines[i].0 == k
    ensures forall j :: 0 <= j < i ==> lines[j].0 != k
  {
    if lines[0].0 == k then 0
    else
      assert KeyIn(lines[1..], k) by {
        var i :| 0 <= i < |lines| && lines[i].0 == k;
        assert lines[1..][i - 1].0 == k;
      }
      1 + FirstAt(lines[1..], k)
  }

  /** The values summed over a list of keys. */
  function SumOver<K>(keys: seq<K>, m: map<K, int>): int
    requires forall k :: k in keys ==> k in m
  {
    if keys == [] then 0 else SumOver(keys[..|keys| - 1], m) + m[keys[|keys| - 1]]
  }

  /** The summary's keys are distinct and are exactly the keys of its dictionary. */
  lemma {:induction false} TallyDomain<K>(lines: seq<(K, int)>)
    ensures Distinct(TallyOf(lines).keys)
    ensures forall k :: k in TallyOf(lines).units <==> k in TallyOf(lines).keys
  {
    if lines != [] {
      TallyDomain(lines[..|lines| - 1]);
    }
  }

  /** The summary lists every key of the lines exactly once, and holds no other. */
  lemma {:induction false} TallyKeys<K>(lines: seq<(K, int)>)
    ensures Distinct(TallyOf(lines).keys)
    ensures forall k :: k in TallyOf(lines).units <==> k in TallyOf(lines).keys
    ensures forall k :: k in TallyOf(lines).keys <==> KeyIn(lines, k)
  {
    TallyDomain(lines);
    if lines != [] {
      var init, last := lines[..|lines| - 1], lines[|lines| - 1];
      TallyKeys(init);
      assert lines == init + [last];
      forall k ensures KeyIn(lines, k) <==> KeyIn(init, k) || k == last.0 {
        if KeyIn(init, k) {
          var i :| 0 <= i < |init| && init[i].0 == k;
          assert lines[i].0 == k;
        }
        if KeyIn(lines, k) && k != last.0 {
          var i :| 0 <= i < |lines| && lines[i].0 == k;
          assert init[i].0 == k;
        }
      }
    }
  }

  /** The units under each key are the units of that key's lines. */
  lemma {:induction false} TallyUnits<K>(lines: seq<(K, int)>, k: K)
    ensures k in TallyOf(lines).units ==> TallyOf(lines).units[k] == UnitsFor(lines, k)
    ensures k !in TallyOf(lines).units ==> UnitsFor(lines, k) == 0
  {
    if lines != [] {
      TallyUnits(lines[..|lines| - 1], k);
    }
  }

  lemma {:induction false} SumOverOther<K>(keys: seq<K>, m: map<K, int>, k: K, v: int)
    requires forall x :: x in keys ==> x in m
    requires k !in keys
    ensures SumOver(keys, m[k := v]) == SumOver(keys, m)
  {
    if keys != [] {
      SumOverOther(keys[..|keys| - 1], m, k, v);
    }
  }

  lemma {:induction false} SumOverAdd<K>(keys: seq<K>, m: map<K, int>, k: K, q: int)
    requires forall x :: x in keys ==> x in m
    requires Distinct(keys) && k in keys
    ensures SumOver(keys, m[k := m[k] + q]) == SumOver(keys, m) + q
  {
    var init, last := keys[..|keys| - 1], keys[|keys| - 1];
    assert keys == init + [last];
    if last == k {
      assert k !in init;
      SumOverOther(init, m, k, m[k] + q);
    } else {
      SumOverAdd(init, m, k, q);
    }
  }

  /** Adding units under a key adds them to the sum of the summary's values. */
  lemma SumAfterBump<K>(t: Tally<K>, k: K, q: int)
    requires Distinct(t.keys) && forall x :: x in t.units <==> x in t.keys
    ensures forall x :: x in Bump(t, k, q).keys ==> x in Bump(t, k, q).units
    ensures SumOver(Bump(t, k, q).keys, Bump(t, k, q).units) == SumOver(t.keys, t.units) + q
  {
    if k in t.units {
      SumOverAdd(t.keys, t.units, k, q);
    } else {
      var keys, m := t.keys + [k], t.units[k := q];
      assert SumOver(t.keys, m) == SumOver(t.keys, t.units) by {
        SumOverOther(t.keys, t.units, k, q);
      }
      assert keys[..|t.keys|] == t.keys;
    }
  }

  /** The values of the summary add up to the units of all lines. */
  lemma {:induction false} TallySum<K>(lines: seq<(K, int)>)
    ensures forall k :: k in TallyOf(lines).keys ==> k in TallyOf(lines).units
    ensures SumOver(TallyOf(lines).keys, TallyOf(lines).units) == LineSum(lines)
  {
    if lines != [] {
      var init, last := lines[..|lines| - 1], lines[|lines| - 1];
      TallySum(init);
      TallyDomain(init);
      SumAfterBump(TallyOf(init), last.0, last.1);
    }
  }

  lemma {:induction false} FirstAtPrefix<K>(init: seq<(K, int)>, last: (K, int), k: K)
    requires KeyIn(init, k)
    ensures KeyIn(init + [last], k)
    ensures FirstAt(init + [last], k) == FirstAt(init, k)
  {
    var i := FirstAt(init, k);
    assert (init + [last])[i].0 == k;
    var j := FirstAt(init + [last], k);
    assert j <= i;
    assert init[j].0 == k;
  }

  /** The summary's keys come in the order in which they first occur among the lines. */
  lemma {:induction false} TallyOrder<K>(lines: seq<(K, int)>, a: nat, b: nat)
    requires a < b < |TallyOf(lines).keys|
    ensures KeyIn(lines, TallyOf(lines).keys[a]) && KeyIn(lines, TallyOf(lines).keys[b])
    ensures FirstAt(lines, TallyOf(lines).keys[a]) < FirstAt(lines, TallyOf(lines).keys[b])
  {
    TallyKeys(lines);
    var keys := TallyOf(lines).keys;
    assert keys[a] in keys && keys[b] in keys;
    var init, last := lines[..|lines| - 1], lines[|lines| - 1];
    assert lines == init + [last];
    TallyKeys(init);
    var t := TallyOf(init);
    if b < |t.keys| {
      assert keys[a] == t.keys[a] && keys[b] == t.keys[b];
      assert t.keys[a] in t.keys && t.keys[b] in t.keys;
      TallyOrder(init, a, b);
      FirstAtPrefix(init, last, keys[a]);
      FirstAtPrefix(init, last, keys[b]);
    } else {
      assert last.0 !in t.units && keys[b] == last.0;
      assert keys[a] == t.keys[a] && t.keys[a] in t.keys;
      assert KeyIn(init, keys[a]);
      FirstAtPrefix(init, last, keys[a]);
    }
  }

  /** Every item of every sale, sale by sale and in item order. */
  function Flatten(sales: seq<Sale>): seq<SaleItem>
  {
    if sales == [] then [] else Flatten(sales[..|sales| - 1]) + sales[|sales| - 1].items
  }

  /** The quantity of each item added up: the report's total of items sold. */
  function Units(items: seq<SaleItem>): int
  {
    if items == [] then 0 else Units(items[..|items| - 1]) + items[|items| - 1].quantity
  }

  /** The units of a sale's items, sale by sale: an independent account of the total sold. */
  function UnitsSold(sales: seq<Sale>): int
  {
    if sales == [] then 0 else UnitsSold(sales[..|sales| - 1]) + Units(sales[|sales| - 1].items)
  }

  lemma {:induction false} UnitsConcat(a: seq<SaleItem>, b: seq<SaleItem>)
    ensures Units(a + b) == Units(a) + Units(b)
  {
    if b == [] {
      assert a + b == a;
    } else {
      assert (a + b)[..|a + b| - 1] == a + b[..|b| - 1];
      UnitsConcat(a, b[..|b| - 1]);
    }
  }

  /** Counting the flattened items gives the sum over the sales of their own units. */
  lemma {:induction false} UnitsFlatten(sales: seq<Sale>)
    ensures Units(Flatten(sales)) == UnitsSold(sales)
  {
    if sales != [] {
      UnitsFlatten(sales[..|sales| - 1]);
      UnitsConcat(Flatten(sales[..|sales| - 1]), sales[|sales| - 1].items);
    }
  }

  /** The first report's lines: each item keyed by its product's (barcode, name). */
  function ByBarcodeAndName(items: seq<SaleItem>): (lines: seq<((string, string), int)>)
    reads ProductsOf(items)
    ensures |lines| == |items|
  {
    if items == [] then []
    else
      var it := items[|items| - 1];
      ByBarcodeAndName(items[..|items| - 1]) + [((it.product.barcode, it.product.name), it.quantity)]
  }

  /** The text report's lines: each item keyed by its product's name. */
  function ByName(items: seq<SaleItem>): (lines: seq<(string, int)>)
    reads ProductsOf(items)
    ensures |lines| == |items|
  {
    if items == [] then []
    else
      var it := items[|items| - 1];
      ByName(items[..|items| - 1]) + [(it.product.name, it.quantity)]
  }

  /** Keying the items by (barcode, name) keeps every unit. */
  lemma {:induction false} ByBarcodeAndNameUnits(items: seq<SaleItem>)
    ensures LineSum(ByBarcodeAndName(items)) == Units(items)
  {
    if items != [] {
      ByBarcodeAndNameUnits(items[..|items| - 1]);
    }
  }

  /** Keying the items by name keeps every unit. */
  lemma {:induction false} ByNameUnits(items: seq<SaleItem>)
    ensures LineSum(ByName(items)) == Units(items)
  {
    if items != [] {
      ByNameUnits(items[..|items| - 1]);
    }
  }

  /**
   * The report's summary values add up to the total of items sold, and that total is
   * the sum over all sales of the quantities of their items.
   */
  lemma SummaryMatchesTotal(sales: seq<Sale>)
    ensures forall k :: k in TallyOf(ByBarcodeAndName(Flatten(sales))).keys ==> k in TallyOf(ByBarcodeAndName(Flatten(sales))).units
    ensures SumOver(TallyOf(ByBarcodeAndName(Flatten(sales))).keys, TallyOf(ByBarcodeAndName(Flatten(sales))).units) == UnitsSold(sales)
  {
    TallySum(ByBarcodeAndName(Flatten(sales)));
    ByBarcodeAndNameUnits(Flatten(sales));
    UnitsFlatten(sales);
  }

  /** The same for the text report, keyed by name. */
  lemma NameSummaryMatchesTotal(sales: seq<Sale>)
    ensures forall k :: k in TallyOf(ByName(Flatten(sales))).keys ==> k in TallyOf(ByName(Flatten(sales))).units
    ensures SumOver(TallyOf(ByName(Flatten(sales))).keys, TallyOf(ByName(Flatten(sales))).units) == UnitsSold(sales)
  {
    TallySum(ByName(Flatten(sales)));
    ByNameUnits(Flatten(sales));
    UnitsFlatten(sales);
  }

  /** One more line adds its units to its key, a new key going last. */
  lemma TallySnoc<K>(lines: seq<(K, int)>, line: (K, int))
    ensures TallyOf(lines + [line]) == Bump(TallyOf(lines), line.0, line.1)
  {
    assert (lines + [line])[..|lines|] == lines;
  }

  lemma UnitsSnoc(items: seq<SaleItem>, item: SaleItem)
    ensures Units(items + [item]) == Units(items) + item.quantity
  {
    assert (items + [item])[..|items|] == items;
  }

  lemma ByBarcodeAndNameSnoc(items: seq<SaleItem>, item: SaleItem)
    ensures ByBarcodeAndName(items + [item]) == ByBarcodeAndName(items) + [((item.product.barcode, item.product.name), item.quantity)]
  {
    assert (items + [item])[..|items|] == items;
  }

  lemma ByNameSnoc(items: seq<SaleItem>, item: SaleItem)
    ensures ByName(items + [item]) == ByName(items) + [(item.product.name, item.quantity)]
  {
    assert (items + [item])[..|items|] == items;
  }

  lemma FlattenStep(sales: seq<Sale>, i: nat)
    requires i < |sales|
    ensures Flatten(sales[..i + 1]) == Flatten(sales[..i]) + sales[i].items
  {
    assert sales[..i + 1][..i] == sales[..i];
  }

  /**
   * The nested loop of `generate_sales_report`: the total of items sold and the
   * (barcode, name) summary. With no sales the source stops before the loop, which
   * leaves the same zero total and empty summary.
   */
  method SalesReport(sales: seq<Sale>) returns (total: int, summary: Tally<(string, string)>)
    ensures total == UnitsSold(sales)
    ensures summary == TallyOf(ByBarcodeAndName(Flatten(sales)))
  {
    total, summary := 0, Tally([], map[]);
    var i := 0;
    while i < |sales|
      invariant 0 <= i <= |sales|
      invariant total == Units(Flatten(sales[..i]))
      invariant summary == TallyOf(ByBarcodeAndName(Flatten(sales[..i])))
    {
      total, summary := AddItems(sales[i].items, Flatten(sales[..i]), total, summary);
      FlattenStep(sales, i);
      i := i + 1;
    }
    assert sales[..i] == sales;
    UnitsFlatten(sales);
  }

  /** The inner loop of `generate_sales_report`: one sale's items added to the running total and summary. */
  method AddItems(items: seq<SaleItem>, ghost before: seq<SaleItem>, total0: int, summary0: Tally<(string, string)>)
    returns (total: int, summary: Tally<(string, string)>)
    requires total0 == Units(before) && summary0 == TallyOf(ByBarcodeAndName(before))
    ensures total == Units(before + items)
    ensures summary == TallyOf(ByBarcodeAndName(before + items))
  {
    total, summary := total0, summary0;
    var j := 0;
    assert before + items[..0] == before;
    while j < |items|
      invariant 0 <= j <= |items|
      invariant total == Units(before + items[..j])
      invariant summary == TallyOf(ByBarcodeAndName(before + items[..j]))
    {
      var item := items[j];
      var key := (item.product.barcode, item.product.name);
      assert total + item.quantity == Units(before + items[..j + 1])
          && Bump(summary, key, item.quantity) == TallyOf(ByBarcodeAndName(before + items[..j + 1])) by {
        var done := before + items[..j];
        assert before + items[..j + 1] == done + [item];
        UnitsSnoc(done, item);
        ByBarcodeAndNameSnoc(done, item);
        TallySnoc(ByBarcodeAndName(done), (key, item.quantity));
      }
      total := total + item.quantity;
      summary := Bump(summary, key, item.quantity);
      j := j + 1;
    }
    assert items[..j] == items;
  }

  /** The loop of `generate_sales_text_report`: the total of items sold and the summary by product name. */
  method SalesTextReport(sales: seq<Sale>) returns (total: int, summary: Tally<string>)
    ensures total == UnitsSold(sales)
    ensures summary == TallyOf(ByName(Flatten(sales)))
  {
    total, summary := 0, Tally([], map[]);
    var i := 0;
    while i < |sales|
      invariant 0 <= i <= |sales|
      invariant total == Units(Flatten(sales[..i]))
      invariant summary == TallyOf(ByName(Flatten(sales[..i])))
    {
      total, summary := AddItemsByName(sales[i].items, Flatten(sales[..i]), total, summary);
      FlattenStep(sales, i);
      i := i + 1;
    }
    assert sales[..i] == sales;
    UnitsFlatten(sales);
  }

  /**
   * The inner loop of `generate_sales_text_report`: a name already in the summary
   * has the units added, a new name is set to them and goes last.
   */
  method AddItemsByName(items: seq<SaleItem>, ghost before: seq<SaleItem>, total0: int, summary0: Tally<string>)
    returns (total: int, summary: Tally<string>)
    requires total0 == Units(before) && summary0 == TallyOf(ByName(before))
    ensures total == Units(before + items)
    ensures summary == TallyOf(ByName(before + items))
  {
    total, summary := total0, summary0;
    var j := 0;
    assert before + items[..0] == before;
    while j < |items|
      invariant 0 <= j <= |items|
      invariant total == Units(before + items[..j])
      invariant summary == TallyOf(ByName(before + items[..j]))
    {
      var item := items[j];
      var name := item.product.name;
      ghost var bumped := Bump(summary, name, item.quantity);
      assert total + item.quantity == Units(before + items[..j + 1])
          && bumped == TallyOf(ByName(before + items[..j + 1])) by {
        var done := before + items[..j];
        assert before + items[..j + 1] == done + [item];
        UnitsSnoc(done, item);
        ByNameSnoc(done, item);
        TallySnoc(ByName(done), (name, item.quantity));
      }
      total := total + item.quantity;
      if name in summary.units {
        summary := summary.(units := summary.units[name := summary.units[name] + item.quantity]);
      } else {
        summary := Tally(summary.keys + [name], summary.units[name := item.quantity]);
      }
      assert summary == bumped;
      j := j + 1;
    }
    assert items[..j] == items;
  }
}

/**
 * The expiration classification of `services/inventory_service.py`. The terminal
 * report, the text report, the CSV report and the search listing each write the same
 * if-chain on `days_until_expiration`: below 0 is expired (shown as the number of days
 * since), 0 to 7 expires within a week, 8 to 30 within a month, and above 30 is valid.
 */
module Expiration {
  import opened Wrappers
  import opened Products
  import opened Queries

  datatype Status = Expired | ExpiringSoon | ExpiringThisMonth | Valid

  /** The terminal and text reports' if-chain. */
  function StatusOf(days: int): (s: Status)
    ensures s == Expired <==> days < 0
    ensures s == ExpiringSoon <==> 0 <= days <= 7
    ensures s == ExpiringThisMonth <==> 8 <= days <= 30
    ensures s == Valid <==> days > 30
  {
    if days < 0 then Expired
    else if days <= 7 then ExpiringSoon
    else if days <= 30 then ExpiringThisMonth
    else Valid
  }

  /** The day count shown beside a product: `abs(days)` for an expired one, the days left otherwise. */
  function ShownDays(days: int): (n: nat)
    ensures StatusOf(days) == Expired ==> n > 0 && n == -days
    ensures StatusOf(days) != Expired ==> n == days
  {
    if days < 0 then -days else days
  }

  /** A product with the day count listed for it. */
  datatype Entry = Entry(product: Product, days: nat)

  /** The four lists the classification loops append to. */
  datatype Buckets = Buckets(expired: seq<Entry>, soon: seq<Entry>, month: seq<Entry>, valid: seq<Entry>)
  {
    function Of(s: Status): seq<Entry>
    {
      match s
      case Expired => expired
      case ExpiringSoon => soon
      case ExpiringThisMonth => month
      case Valid => valid
    }

    function Size(): nat
    {
      |expired| + |soon| + |month| + |valid|
    }
  }

  /** Every product of the list carries an expiration date, as every perishable product entered through the service does. */
  predicate Dated(ps: seq<Product>)
    reads ps
  {
    forall i :: 0 <= i < |ps| ==> ps[i].expirationDate.Some?
  }

  function ProductsOf(entries: seq<Entry>): (ps: seq<Product>)
    ensures |ps| == |entries|
    ensures forall i :: 0 <= i < |entries| ==> ps[i] == entries[i].product
  {
    seq(|entries|, i requires 0 <= i < |entries| => entries[i].product)
  }

  /** `b` with `p` appended to the list its status selects. */
  function Place(b: Buckets, p: Product, today: Day): Buckets
    reads p
    requires p.expirationDate.Some?
  {
    var days := p.DaysUntilExpiration(today);
    var e := Entry(p, ShownDays(days));
    match StatusOf(days)
    case Expired => b.(expired := b.expired + [e])
    case ExpiringSoon => b.(soon := b.soon + [e])
    case ExpiringThisMonth => b.(month := b.month + [e])
    case Valid => b.(valid := b.valid + [e])
  }

  /**
   * The buckets after the loop has gone over every product of `ps`, in order. Each
   * product lands in exactly one list, so the four lists together are as long as the input.
   */
  function Classify(ps: seq<Product>, today: Day): (b: Buckets)
    reads ps
    requires Dated(ps)
    ensures b.Size() == |ps|
  {
    if ps == [] then Buckets([], [], [], [])
    else Place(Classify(ps[..|ps| - 1], today), ps[|ps| - 1], today)
  }

  /** Placing a product extends the list of its own status by one entry and leaves the other lists alone. */
  lemma PlaceOf(b: Buckets, p: Product, today: Day, s: Status)
    requires p.expirationDate.Some?
    ensures Place(b, p, today).Of(s) ==
      if StatusOf(p.DaysUntilExpiration(today)) == s
      then b.Of(s) + [Entry(p, ShownDays(p.DaysUntilExpiration(today)))]
      else b.Of(s)
  {
  }

  /**
   * A product is listed under a status exactly when it is one of the classified
   * products and its days until expiration give that status.
   */
  lemma {:induction false} ClassifyMembership(ps: seq<Product>, today: Day, s: Status, p: Product)
    requires Dated(ps)
    ensures p in ProductsOf(Classify(ps, today).Of(s)) <==>
      (p in ps && p.expirationDate.Some? && StatusOf(p.DaysUntilExpiration(today)) == s)
  {
    if ps != [] {
      var init, last := ps[..|ps| - 1], ps[|ps| - 1];
      ClassifyMembership(init, today, s, p);
      assert ps == init + [last];
      var b := Classify(init, today);
      PlaceOf(b, last, today, s);
      var e := Entry(last, ShownDays(last.DaysUntilExpiration(today)));
      if StatusOf(last.DaysUntilExpiration(today)) == s {
        assert ProductsOf(b.Of(s) + [e]) == ProductsOf(b.Of(s)) + [last];
      }
    }
  }

  /** Every entry lists one of the classified products with the day count shown for it. */
  lemma {:induction false} ClassifyEntries(ps: seq<Product>, today: Day, s: Status, e: Entry)
    requires Dated(ps)
    requires e in Classify(ps, today).Of(s)
    ensures e.product in ps && e.product.expirationDate.Some?
    ensures e.days == ShownDays(e.product.DaysUntilExpiration(today))
    ensures StatusOf(e.product.DaysUntilExpiration(today)) == s
  {
    var init, last := ps[..|ps| - 1], ps[|ps| - 1];
    assert ps == init + [last];
    var b := Classify(init, today);
    PlaceOf(b, last, today, s);
    if e in b.Of(s) {
      ClassifyEntries(init, today, s, e);
    }
  }

  /** The terminal and text reports at once: the buckets, and the number of non-perishable products. */
  datatype Report = EmptyInventory | Summary(buckets: Buckets, nonPerishable: seq<Product>)

  /** The loop over the perishable products that fills the four lists. */
  method ClassifyPerishables(perishables: seq<Product>, today: Day) returns (b: Buckets)
    requires Dated(perishables)
    ensures b == Classify(perishables, today)
    ensures b.Size() == |perishables|
  {
    b := Buckets([], [], [], []);
    var i := 0;
    while i < |perishables|
      invariant 0 <= i <= |perishables|
      invariant b == Classify(perishables[..i], today)
    {
      var p := perishables[i];
      var days := p.DaysUntilExpiration(today);
      if days < 0 {
        b := b.(expired := b.expired + [Entry(p, ShownDays(days))]);
      } else if days <= 7 {
        b := b.(soon := b.soon + [Entry(p, days)]);
      } else if days <= 30 {
        b := b.(month := b.month + [Entry(p, days)]);
      } else {
        b := b.(valid := b.valid + [Entry(p, days)]);
      }
      assert perishables[..i + 1][..i] == perishables[..i];
      i := i + 1;
    }
    assert perishables[..i] == perishables;
  }

  /**
   * `show_expiration_report` without its output: an empty inventory is reported as
   * such; otherwise the perishable products are classified and the non-perishable ones
   * counted, and the five counts add up to the number of products.
   */
  method ExpirationReport(products: seq<Product>, today: Day) returns (r: Report)
    requires Dated(Select(products, Perishable))
    ensures products == [] <==> r.EmptyInventory?
    ensures r.Summary? ==> r.buckets == Classify(Select(products, Perishable), today)
    ensures r.Summary? ==> r.nonPerishable == Select(products, NotPerishable)
    ensures r.Summary? ==> r.buckets.Size() + |r.nonPerishable| == |products|
  {
    if products == [] {
      return EmptyInventory;
    }
    var perishables := Select(products, Perishable);
    var others := Select(products, NotPerishable);
    var b := ClassifyPerishables(perishables, today);
    PerishablePartition(products);
    r := Summary(b, others);
  }

  /** The CSV report's own if-chain for the status column. */
  function CsvStatus(days: int): string
  {
    if days < 0 then "VENCIDO"
    else if days <= 7 then "VENCE_EM_7_DIAS"
    else if days <= 30 then "VENCE_EM_30_DIAS"
    else "VALIDO"
  }

  function CsvLabel(s: Status): string
  {
    match s
    case Expired => "VENCIDO"
    case ExpiringSoon => "VENCE_EM_7_DIAS"
    case ExpiringThisMonth => "VENCE_EM_30_DIAS"
    case Valid => "VALIDO"
  }

  /** The type and status columns of a product's CSV row. */
  function CsvColumns(p: Product, today: Day): (cols: (string, string))
    reads p
    requires p.isPerishable ==> p.expirationDate.Some?
    ensures cols.0 == "PERECIVEL" <==> p.isPerishable
    ensures cols.1 == "NAO_APLICAVEL" <==> !p.isPerishable
    ensures p.isPerishable ==> cols.1 == CsvLabel(StatusOf(p.DaysUntilExpiration(today)))
  {
    if p.isPerishable then
      CsvSameThresholds(p.DaysUntilExpiration(today));
      ("PERECIVEL", CsvStatus(p.DaysUntilExpiration(today)))
    else ("NAO_PERECIVEL", "NAO_APLICAVEL")
  }

  /** The CSV chain gives the label of the terminal report's status, for every day count. */
  lemma CsvSameThresholds(days: int)
    ensures CsvStatus(days) == CsvLabel(StatusOf(days))
    ensures CsvStatus(days) != "NAO_APLICAVEL"
  {
  }

  /** Different statuses have different CSV labels, so labels and statuses correspond one to one. */
  lemma CsvLabelInjective(s: Status, t: Status)
    ensures CsvLabel(s) == CsvLabel(t) ==> s == t
  {
    if s != t {
      assert CsvLabel(s)[|CsvLabel(s)| - 1] != CsvLabel(t)[|CsvLabel(t)| - 1] || |CsvLabel(s)| != |CsvLabel(t)|;
    }
  }

  /** The search listing's own if-chain: the status marker printed before the day count. */
  function SearchBadge(days: int): string
  {
    if days < 0 then "\U{274C} VENCIDO h\U{00E1}"
    else if days <= 7 then "\U{26A0}\U{FE0F}  Vence em"
    else if days <= 30 then "\U{1F7E1} Vence em"
    else "\U{2705} V\U{00E1}lido por"
  }

  function BadgeOf(s: Status): string
  {
    match s
    case Expired => "\U{274C} VENCIDO h\U{00E1}"
    case ExpiringSoon => "\U{26A0}\U{FE0F}  Vence em"
    case ExpiringThisMonth => "\U{1F7E1} Vence em"
    case Valid => "\U{2705} V\U{00E1}lido por"
  }

  /** The search chain uses the same thresholds as the reports. */
  lemma SearchSameThresholds(days: int)
    ensures SearchBadge(days) == BadgeOf(StatusOf(days))
  {
  }

  /** Different statuses have different badges. */
  lemma BadgeInjective(s: Status, t: Status)
    ensures BadgeOf(s) == BadgeOf(t) ==> s == t
  {
    if s != t {
      assert BadgeOf(s)[0] != BadgeOf(t)[0];
    }
  }
}

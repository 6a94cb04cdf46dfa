/**
 * The star schema (online_retails/tasks/mart/build_fact_table.py and
 * build_dim_table.py).
 *
 * Every builder truncates its table and inserts one SELECT over the vault.
 * The SELECT is a function of the vault tables; the task is a method that
 * replaces the table field with it.  Joins produce rows with multiplicity,
 * so the tables stay sequences; their order carries no meaning.
 */
module Marts {
  import opened Tables
  import opened HashKeys
  import opened Entities
  import opened Staging
  import opened Vault

  function LinkLeft(r: LinkRow): Key { r.left }

  function LinkRight(r: LinkRow): Key { r.right }

  /**
   * "LEFT JOIN link ON probe = link.<left member key>", selecting the link's
   * other key: every linked key, or one NULL when nothing is linked.
   */
  function Linked(link: seq<LinkRow>, probe: Key): (r: seq<Option<Key>>)
    ensures |r| == AtLeastOne(|Matching(link, LinkLeft, probe)|)
    ensures None in r <==> probe !in KeySet(link, LinkLeft)
    ensures forall v :: Some(v) in r <==> exists x :: x in link && x.left == probe && x.right == v
  {
    LeftJoinValues(link, LinkLeft, probe, LinkRight)
  }

  // --- Facts ---------------------------------------------------------------------

  /** The four invoice links, each read on its hub_invoice_hash_key. */
  datatype InvoiceLinks = InvoiceLinks(product: seq<LinkRow>, customer: seq<LinkRow>, time: seq<LinkRow>, country: seq<LinkRow>)

  /** The dimension keys one fact row carries; NULL where the left join found nothing. */
  datatype Dimensions = Dimensions(product: Option<Key>, customer: Option<Key>, time: Option<Key>, country: Option<Key>)

  /** A row of Fact_Sales or Fact_Sale_Returns. */
  datatype FactRow = FactRow(
    saleId: Key, invoiceNo: Option<string>,
    productKey: Option<Key>, customerKey: Option<Key>, timeKey: Option<Key>, countryKey: Option<Key>,
    quantity: int, unitPrice: Float, totalAmount: Float)

  function DimensionsOf(x: FactRow): Dimensions {
    Dimensions(x.productKey, x.customerKey, x.timeKey, x.countryKey)
  }

  /** The SELECT list: the hub's key and InvoiceNo, the link keys, the satellite's measures. */
  function MakeFact(i: HubRow<InvoiceRef>, s: SatRow<InvoiceAttrs>, d: Dimensions): FactRow {
    FactRow(i.key, i.payload.invoiceNo, d.product, d.customer, d.time, d.country,
      s.payload.quantity, s.payload.unitPrice, s.payload.totalAmount)
  }

  function Product4(a: nat, b: nat, c: nat, d: nat): nat {
    a * b * c * d
  }

  /** How many rows one left join makes of a probe key: max(1, matching link rows). */
  function LeftJoinCount(link: seq<LinkRow>, k: Key): nat {
    AtLeastOne(|Matching(link, LinkLeft, k)|)
  }

  /** How many rows the four left joins make of one invoice key. */
  function FanOut(links: InvoiceLinks, k: Key): nat {
    Product4(LeftJoinCount(links.product, k), LeftJoinCount(links.customer, k),
      LeftJoinCount(links.time, k), LeftJoinCount(links.country, k))
  }

  function DimensionsOfTuple(t: (Option<Key>, Option<Key>, Option<Key>, Option<Key>)): Dimensions {
    Dimensions(t.0, t.1, t.2, t.3)
  }

  /** Every combination of what the four left joins give one invoice key. */
  function DimensionChoices(links: InvoiceLinks, k: Key): seq<Dimensions> {
    Project(Combos(Linked(links.product, k), Linked(links.customer, k), Linked(links.time, k), Linked(links.country, k)),
      DimensionsOfTuple)
  }

  lemma CombinedDimensions(a: seq<Option<Key>>, b: seq<Option<Key>>, c: seq<Option<Key>>, e: seq<Option<Key>>, d: Dimensions)
    ensures d in Project(Combos(a, b, c, e), DimensionsOfTuple) <==> d.product in a && d.customer in b && d.time in c && d.country in e
  {
    var q := Combos(a, b, c, e);
    var r := Project(q, DimensionsOfTuple);
    if d in r {
      var j :| 0 <= j < |r| && r[j] == d;
      assert q[j] in q && q[j] == (d.product, d.customer, d.time, d.country);
    }
    assert DimensionsOfTuple((d.product, d.customer, d.time, d.country)) == d;
  }

  /** A combination is chosen exactly when each of its keys is one its left join gives. */
  lemma DimensionChoicesMembers(links: InvoiceLinks, k: Key, d: Dimensions)
    ensures d in DimensionChoices(links, k) <==>
      d.product in Linked(links.product, k) && d.customer in Linked(links.customer, k) &&
      d.time in Linked(links.time, k) && d.country in Linked(links.country, k)
  {
    CombinedDimensions(Linked(links.product, k), Linked(links.customer, k), Linked(links.time, k), Linked(links.country, k), d);
  }

  /** One invoice key has FanOut combinations. */
  lemma DimensionChoicesCount(links: InvoiceLinks, k: Key)
    ensures |DimensionChoices(links, k)| == FanOut(links, k)
  {
    CombosLength(Linked(links.product, k), Linked(links.customer, k), Linked(links.time, k), Linked(links.country, k));
  }

  /** Every invoice key has at least one combination, since a left join gives at least one row. */
  lemma ChoicesExist(links: InvoiceLinks, k: Key)
    ensures |DimensionChoices(links, k)| >= 1
  {
    DimensionChoicesCount(links, k);
  }

  /** The fact rows of one matched hub_invoice and sat_invoice pair: one per combination. */
  function SaleRows(i: HubRow<InvoiceRef>, s: SatRow<InvoiceAttrs>, links: InvoiceLinks): (r: seq<FactRow>)
    ensures |r| == |DimensionChoices(links, i.key)|
  {
    Project(DimensionChoices(links, i.key), (d: Dimensions) => MakeFact(i, s, d))
  }

  /** A row is one of the pair's fact rows exactly when it carries the pair's values and a chosen combination. */
  lemma SaleRowsMembers(i: HubRow<InvoiceRef>, s: SatRow<InvoiceAttrs>, links: InvoiceLinks, x: FactRow)
    ensures x in SaleRows(i, s, links) <==> x == MakeFact(i, s, DimensionsOf(x)) && DimensionsOf(x) in DimensionChoices(links, i.key)
  {
    var ds := DimensionChoices(links, i.key);
    var r := SaleRows(i, s, links);
    if x in r {
      var j :| 0 <= j < |r| && r[j] == x;
      assert ds[j] in ds && DimensionsOf(x) == ds[j];
    }
  }

  /** FROM hub_invoice i JOIN sat_invoice s ON the invoice key, with s filtered to one ReturnStatus. */
  function MatchedPairs(hub: seq<HubRow<InvoiceRef>>, sat: seq<SatRow<InvoiceAttrs>>, status: ReturnStatus)
    : (r: seq<(HubRow<InvoiceRef>, SatRow<InvoiceAttrs>)>)
    ensures forall i, s :: (i, s) in r <==> i in hub && s in sat && i.key == s.key && s.payload.returnStatus == status
  {
    Filter(Cross(hub, sat), (t: (HubRow<InvoiceRef>, SatRow<InvoiceAttrs>)) => t.0.key == t.1.key && t.1.payload.returnStatus == status)
  }

  /** The SELECT of fact_sales (status Normal) and of fact_sale_returns (status Return). */
  function FactRows(hub: seq<HubRow<InvoiceRef>>, sat: seq<SatRow<InvoiceAttrs>>, links: InvoiceLinks, status: ReturnStatus): seq<FactRow> {
    FlatMap(MatchedPairs(hub, sat, status), (t: (HubRow<InvoiceRef>, SatRow<InvoiceAttrs>)) => SaleRows(t.0, t.1, links))
  }

  /** The fact row x is the one hub row i, satellite row s and a combination of their links produce. */
  ghost predicate FedBy(x: FactRow, i: HubRow<InvoiceRef>, s: SatRow<InvoiceAttrs>, links: InvoiceLinks, status: ReturnStatus) {
    i.key == s.key && s.payload.returnStatus == status &&
    x == MakeFact(i, s, DimensionsOf(x)) && DimensionsOf(x) in DimensionChoices(links, i.key)
  }

  lemma {:induction false} FactRowIsFed(
    hub: seq<HubRow<InvoiceRef>>, sat: seq<SatRow<InvoiceAttrs>>, links: InvoiceLinks, status: ReturnStatus, x: FactRow)
    requires x in FactRows(hub, sat, links, status)
    ensures exists i, s :: i in hub && s in sat && FedBy(x, i, s, links, status)
  {
    var pairs := MatchedPairs(hub, sat, status);
    var f := (t: (HubRow<InvoiceRef>, SatRow<InvoiceAttrs>)) => SaleRows(t.0, t.1, links);
    FlatMapMembers(pairs, f, x);
    var t :| t in pairs && x in f(t);
    SaleRowsMembers(t.0, t.1, links, x);
    assert (t.0, t.1) in pairs;
    assert t.0 in hub && t.1 in sat && FedBy(x, t.0, t.1, links, status);
  }

  lemma {:induction false} FedRowIsFact(
    hub: seq<HubRow<InvoiceRef>>, sat: seq<SatRow<InvoiceAttrs>>, links: InvoiceLinks, status: ReturnStatus,
    i: HubRow<InvoiceRef>, s: SatRow<InvoiceAttrs>, x: FactRow)
    requires i in hub && s in sat && FedBy(x, i, s, links, status)
    ensures x in FactRows(hub, sat, links, status)
  {
    var pairs := MatchedPairs(hub, sat, status);
    var f := (t: (HubRow<InvoiceRef>, SatRow<InvoiceAttrs>)) => SaleRows(t.0, t.1, links);
    SaleRowsMembers(i, s, links, x);
    assert (i, s) in pairs && x in f((i, s));
    FlatMapMembers(pairs, f, x);
  }

  /** A row is a fact row exactly when a matched hub and satellite row and their links produce it. */
  lemma FactRowsMembers(
    hub: seq<HubRow<InvoiceRef>>, sat: seq<SatRow<InvoiceAttrs>>, links: InvoiceLinks, status: ReturnStatus, x: FactRow)
    ensures x in FactRows(hub, sat, links, status) <==> exists i, s :: i in hub && s in sat && FedBy(x, i, s, links, status)
  {
    if x in FactRows(hub, sat, links, status) {
      FactRowIsFed(hub, sat, links, status, x);
    }
    if exists i, s :: i in hub && s in sat && FedBy(x, i, s, links, status) {
      var i, s :| i in hub && s in sat && FedBy(x, i, s, links, status);
      FedRowIsFact(hub, sat, links, status, i, s, x);
    }
  }

  /**
   * Every fact row comes from a hub_invoice row and a sat_invoice row of the
   * selected ReturnStatus under its sale_id, and carries their InvoiceNo,
   * quantity, unit_price and total_amount unchanged.
   */
  lemma FactRowsAreSourced(hub: seq<HubRow<InvoiceRef>>, sat: seq<SatRow<InvoiceAttrs>>, links: InvoiceLinks, status: ReturnStatus, x: FactRow)
    requires x in FactRows(hub, sat, links, status)
    ensures exists i, s ::
      i in hub && s in sat && i.key == x.saleId && s.key == x.saleId &&
      s.payload.returnStatus == status && x.invoiceNo == i.payload.invoiceNo &&
      x.quantity == s.payload.quantity && x.unitPrice == s.payload.unitPrice && x.totalAmount == s.payload.totalAmount
  {
    FactRowsMembers(hub, sat, links, status, x);
    var i, s :| i in hub && s in sat && FedBy(x, i, s, links, status);
  }

  /** A value the left join gives is NULL exactly when the probe key has no link row. */
  lemma LinkedNullMeansUnlinked(link: seq<LinkRow>, k: Key, v: Option<Key>)
    requires v in Linked(link, k)
    ensures v == None <==> k !in KeySet(link, LinkLeft)
  {
  }

  /** A dimension key is NULL in a fact row exactly when the invoice has no row in that link. */
  lemma NullDimensionMeansUnlinked(links: InvoiceLinks, k: Key, d: Dimensions)
    requires d in DimensionChoices(links, k)
    ensures d.product == None <==> k !in KeySet(links.product, LinkLeft)
    ensures d.customer == None <==> k !in KeySet(links.customer, LinkLeft)
    ensures d.time == None <==> k !in KeySet(links.time, LinkLeft)
    ensures d.country == None <==> k !in KeySet(links.country, LinkLeft)
  {
    DimensionChoicesMembers(links, k, d);
    LinkedNullMeansUnlinked(links.product, k, d.product);
    LinkedNullMeansUnlinked(links.customer, k, d.customer);
    LinkedNullMeansUnlinked(links.time, k, d.time);
    LinkedNullMeansUnlinked(links.country, k, d.country);
  }

  /**
   * The left joins lose no sale: every matched hub and satellite row gives a
   * fact row for each combination of its links, and there is at least one.
   */
  lemma {:induction false} FactRowsKeepEveryMatch(
    hub: seq<HubRow<InvoiceRef>>, sat: seq<SatRow<InvoiceAttrs>>, links: InvoiceLinks, status: ReturnStatus,
    i: HubRow<InvoiceRef>, s: SatRow<InvoiceAttrs>)
    requires i in hub && s in sat && i.key == s.key && s.payload.returnStatus == status
    ensures |DimensionChoices(links, i.key)| >= 1
    ensures forall d :: d in DimensionChoices(links, i.key) ==> MakeFact(i, s, d) in FactRows(hub, sat, links, status)
  {
    ChoicesExist(links, i.key);
    forall d | d in DimensionChoices(links, i.key) ensures MakeFact(i, s, d) in FactRows(hub, sat, links, status) {
      var x := MakeFact(i, s, d);
      assert DimensionsOf(x) == d;
      FedRowIsFact(hub, sat, links, status, i, s, x);
    }
  }

  /** A sale with no product link still appears, with a NULL product_key. */
  lemma UnlinkedSaleHasNullProduct(
    hub: seq<HubRow<InvoiceRef>>, sat: seq<SatRow<InvoiceAttrs>>, links: InvoiceLinks, status: ReturnStatus,
    i: HubRow<InvoiceRef>, s: SatRow<InvoiceAttrs>)
    requires i in hub && s in sat && i.key == s.key && s.payload.returnStatus == status
    requires i.key !in KeySet(links.product, LinkLeft)
    ensures exists x ::
      x in FactRows(hub, sat, links, status) && x.saleId == i.key && x.productKey == None &&
      x.quantity == s.payload.quantity && x.unitPrice == s.payload.unitPrice && x.totalAmount == s.payload.totalAmount
  {
    FactRowsKeepEveryMatch(hub, sat, links, status, i, s);
    var d := DimensionChoices(links, i.key)[0];
    NullDimensionMeansUnlinked(links, i.key, d);
    assert MakeFact(i, s, d) in FactRows(hub, sat, links, status);
  }

  /** The row count: over the matched pairs, the product of max(1, matching link rows) over the four links. */
  lemma FactRowCount(hub: seq<HubRow<InvoiceRef>>, sat: seq<SatRow<InvoiceAttrs>>, links: InvoiceLinks, status: ReturnStatus)
    ensures |FactRows(hub, sat, links, status)| ==
      SumOf(MatchedPairs(hub, sat, status), (t: (HubRow<InvoiceRef>, SatRow<InvoiceAttrs>)) => FanOut(links, t.0.key))
  {
    forall t | t in MatchedPairs(hub, sat, status) ensures |SaleRows(t.0, t.1, links)| == FanOut(links, t.0.key) {
      DimensionChoicesCount(links, t.0.key);
    }
    FlatMapLength(MatchedPairs(hub, sat, status),
      (t: (HubRow<InvoiceRef>, SatRow<InvoiceAttrs>)) => SaleRows(t.0, t.1, links),
      (t: (HubRow<InvoiceRef>, SatRow<InvoiceAttrs>)) => FanOut(links, t.0.key));
  }

  /**
   * Every non-NULL dimension key of a fact row is a key of its hub, provided
   * the links reference their hubs (which loading each link after its hubs
   * keeps true).
   */
  lemma FactKeysResolve(
    hub: seq<HubRow<InvoiceRef>>, sat: seq<SatRow<InvoiceAttrs>>, links: InvoiceLinks, status: ReturnStatus,
    invoiceKeys: set<Key>, productKeys: set<Key>, customerKeys: set<Key>, timeKeys: set<Key>, countryKeys: set<Key>, x: FactRow)
    requires References(links.product, invoiceKeys, productKeys) && References(links.customer, invoiceKeys, customerKeys)
    requires References(links.time, invoiceKeys, timeKeys) && References(links.country, invoiceKeys, countryKeys)
    requires x in FactRows(hub, sat, links, status)
    ensures x.productKey.Some? ==> x.productKey.value in productKeys
    ensures x.customerKey.Some? ==> x.customerKey.value in customerKeys
    ensures x.timeKey.Some? ==> x.timeKey.value in timeKeys
    ensures x.countryKey.Some? ==> x.countryKey.value in countryKeys
  {
    FactRowsMembers(hub, sat, links, status, x);
    var i, s :| i in hub && s in sat && FedBy(x, i, s, links, status);
    var d := DimensionsOf(x);
    DimensionChoicesMembers(links, i.key, d);
  }

  /** A sale_id with no Return row in sat_invoice never appears in Fact_Sale_Returns. */
  lemma NoReturnRowNoReturnFact(hub: seq<HubRow<InvoiceRef>>, sat: seq<SatRow<InvoiceAttrs>>, links: InvoiceLinks, k: Key)
    requires forall s :: s in sat && s.key == k ==> s.payload.returnStatus == Normal
    ensures forall x :: x in FactRows(hub, sat, links, Return) ==> x.saleId != k
  {
    forall x | x in FactRows(hub, sat, links, Return) ensures x.saleId != k {
      FactRowsAreSourced(hub, sat, links, Return, x);
    }
  }

  /** A Return row of sat_invoice whose key is in hub_invoice reaches Fact_Sale_Returns with its measures. */
  lemma ReturnRowReachesReturnFacts(hub: seq<HubRow<InvoiceRef>>, sat: seq<SatRow<InvoiceAttrs>>, links: InvoiceLinks, s: SatRow<InvoiceAttrs>)
    requires s in sat && s.payload.returnStatus == Return && s.key in KeySet(hub, HubRowKey)
    ensures exists x ::
      x in FactRows(hub, sat, links, Return) && x.saleId == s.key &&
      x.quantity == s.payload.quantity && x.unitPrice == s.payload.unitPrice && x.totalAmount == s.payload.totalAmount
  {
    var i :| i in hub && i.key == s.key;
    ChoicesExist(links, i.key);
    var d := DimensionChoices(links, i.key)[0];
    var x := MakeFact(i, s, d);
    assert DimensionsOf(x) == d;
    FedRowIsFact(hub, sat, links, Return, i, s, x);
  }

  // --- Dimensions --------------------------------------------------------------

  datatype DimProductRow = DimProductRow(productKey: Key, stockCode: string, description: Option<string>)

  /** The SELECT list of dim_product: the hub's key and StockCode, the satellite's Description. */
  function DimProductOf(t: (HubRow<string>, SatRow<Option<string>>)): DimProductRow {
    DimProductRow(t.0.key, t.0.payload, t.1.payload)
  }

  /** dim_product: hub_product JOIN sat_product. */
  function DimProductRows(hub: seq<HubRow<string>>, sat: seq<SatRow<Option<string>>>): seq<DimProductRow> {
    Project(JoinPairs(hub, sat, HubRowKey, SatRowKey), DimProductOf)
  }

  /** A row is in Dim_Product exactly when a hub_product row and a sat_product row with its key produce it. */
  lemma DimProductMembers(hub: seq<HubRow<string>>, sat: seq<SatRow<Option<string>>>, x: DimProductRow)
    ensures x in DimProductRows(hub, sat) <==>
      exists p, s :: p in hub && s in sat && p.key == s.key && x == DimProductOf((p, s))
  {
    var pairs := JoinPairs(hub, sat, HubRowKey, SatRowKey);
    if x in DimProductRows(hub, sat) {
      var t :| t in pairs && x == DimProductOf(t);
      assert (t.0, t.1) in pairs;
    }
  }

  /** Dim_Product holds exactly the hub_product keys that have a sat_product row. */
  lemma DimProductKeys(hub: seq<HubRow<string>>, sat: seq<SatRow<Option<string>>>)
    ensures (set x | x in DimProductRows(hub, sat) :: x.productKey) == KeySet(hub, HubRowKey) * KeySet(sat, SatRowKey)
  {
    var ks := set x | x in DimProductRows(hub, sat) :: x.productKey;
    forall k | k in ks ensures k in KeySet(hub, HubRowKey) * KeySet(sat, SatRowKey) {
      var x :| x in DimProductRows(hub, sat) && x.productKey == k;
      DimProductMembers(hub, sat, x);
    }
    forall k | k in KeySet(hub, HubRowKey) * KeySet(sat, SatRowKey) ensures k in ks {
      var p :| p in hub && p.key == k;
      var s :| s in sat && s.key == k;
      DimProductMembers(hub, sat, DimProductOf((p, s)));
    }
  }

  datatype DimTimeRow = DimTimeRow(timeKey: Key, date: Date, year: int, month: int, dayOfWeek: int)

  /** The SELECT list of dim_time: the hub's key and the satellite's calendar attributes. */
  function DimTimeOf(t: (HubRow<Timestamp>, SatRow<TimeAttrs>)): DimTimeRow {
    DimTimeRow(t.0.key, t.1.payload.date, t.1.payload.year, t.1.payload.month, t.1.payload.dayOfWeek)
  }

  /** dim_time: hub_time JOIN sat_time. */
  function DimTimeRows(hub: seq<HubRow<Timestamp>>, sat: seq<SatRow<TimeAttrs>>): seq<DimTimeRow> {
    Project(JoinPairs(hub, sat, HubRowKey, SatRowKey), DimTimeOf)
  }

  /** A row is in Dim_Time exactly when a hub_time row and a sat_time row with its key produce it. */
  lemma DimTimeMembers(hub: seq<HubRow<Timestamp>>, sat: seq<SatRow<TimeAttrs>>, x: DimTimeRow)
    ensures x in DimTimeRows(hub, sat) <==>
      exists t, s :: t in hub && s in sat && t.key == s.key && x == DimTimeOf((t, s))
  {
    var pairs := JoinPairs(hub, sat, HubRowKey, SatRowKey);
    if x in DimTimeRows(hub, sat) {
      var t :| t in pairs && x == DimTimeOf(t);
      assert (t.0, t.1) in pairs;
    }
  }

  /** Dim_Time holds exactly the hub_time keys that have a sat_time row. */
  lemma DimTimeKeys(hub: seq<HubRow<Timestamp>>, sat: seq<SatRow<TimeAttrs>>)
    ensures (set x | x in DimTimeRows(hub, sat) :: x.timeKey) == KeySet(hub, HubRowKey) * KeySet(sat, SatRowKey)
  {
    var ks := set x | x in DimTimeRows(hub, sat) :: x.timeKey;
    forall k | k in ks ensures k in KeySet(hub, HubRowKey) * KeySet(sat, SatRowKey) {
      var x :| x in DimTimeRows(hub, sat) && x.timeKey == k;
      DimTimeMembers(hub, sat, x);
    }
    forall k | k in KeySet(hub, HubRowKey) * KeySet(sat, SatRowKey) ensures k in ks {
      var t :| t in hub && t.key == k;
      var s :| s in sat && s.key == k;
      DimTimeMembers(hub, sat, DimTimeOf((t, s)));
    }
  }

  datatype DimCustomerRow = DimCustomerRow(customerKey: Key, customerId: int, countryKey: Option<Key>)

  /** hub_customer WHERE CustomerID <> 0. */
  function KnownCustomers(hub: seq<HubRow<int>>): (r: seq<HubRow<int>>)
    ensures forall c :: c in r <==> c in hub && c.payload != UnknownCustomer
  {
    Filter(hub, (c: HubRow<int>) => c.payload != UnknownCustomer)
  }

  function CustomerRows(c: HubRow<int>, link: seq<LinkRow>): seq<DimCustomerRow> {
    Project(Linked(link, c.key), (v: Option<Key>) => DimCustomerRow(c.key, c.payload, v))
  }

  /** dim_customer: known customers LEFT JOIN link_customer_country. */
  function DimCustomerRows(hub: seq<HubRow<int>>, link: seq<LinkRow>): seq<DimCustomerRow> {
    FlatMap(KnownCustomers(hub), (c: HubRow<int>) => CustomerRows(c, link))
  }

  /** A row is in Dim_Customer exactly when a known customer and one of its country links (or NULL) produce it. */
  lemma {:induction false} DimCustomerMembers(hub: seq<HubRow<int>>, link: seq<LinkRow>, x: DimCustomerRow)
    ensures x in DimCustomerRows(hub, link) <==>
      exists c :: c in hub && c.payload != UnknownCustomer && x.customerKey == c.key && x.customerId == c.payload &&
        x.countryKey in Linked(link, c.key)
  {
    var f := (c: HubRow<int>) => CustomerRows(c, link);
    FlatMapMembers(KnownCustomers(hub), f, x);
    if x in DimCustomerRows(hub, link) {
      var c :| c in KnownCustomers(hub) && x in f(c);
      var rs := CustomerRows(c, link);
      var j :| 0 <= j < |rs| && rs[j] == x;
      assert Linked(link, c.key)[j] in Linked(link, c.key);
    }
    if exists c :: c in hub && c.payload != UnknownCustomer && x.customerKey == c.key && x.customerId == c.payload &&
        x.countryKey in Linked(link, c.key) {
      var c :| c in hub && c.payload != UnknownCustomer && x.customerKey == c.key && x.customerId == c.payload &&
        x.countryKey in Linked(link, c.key);
      assert x == DimCustomerRow(c.key, c.payload, x.countryKey);
      assert c in KnownCustomers(hub) && x in f(c);
    }
  }

  /** Dim_Customer never holds the unknown customer. */
  lemma DimCustomerExcludesUnknown(hub: seq<HubRow<int>>, link: seq<LinkRow>)
    ensures forall x :: x in DimCustomerRows(hub, link) ==> x.customerId != UnknownCustomer
  {
    forall x | x in DimCustomerRows(hub, link) ensures x.customerId != UnknownCustomer {
      DimCustomerMembers(hub, link, x);
    }
  }

  /** A known customer with no customer-country link still appears, with a NULL country_key. */
  lemma DimCustomerKeepsUnlinked(hub: seq<HubRow<int>>, link: seq<LinkRow>, c: HubRow<int>)
    requires c in hub && c.payload != UnknownCustomer && c.key !in KeySet(link, LinkLeft)
    ensures DimCustomerRow(c.key, c.payload, None) in DimCustomerRows(hub, link)
  {
    DimCustomerMembers(hub, link, DimCustomerRow(c.key, c.payload, None));
  }

  datatype DimCountryRow = DimCountryRow(countryKey: Key, countryName: Option<string>)

  function DimCountryRowOf(c: HubRow<Option<string>>): DimCountryRow {
    DimCountryRow(c.key, c.payload)
  }

  function DimCountryKey(x: DimCountryRow): Key { x.countryKey }

  /** dim_country: a projection of hub_country. */
  function DimCountryRows(hub: seq<HubRow<Option<string>>>): seq<DimCountryRow> {
    Project(hub, DimCountryRowOf)
  }

  /** Dim_Country has one row per hub_country row, with its keys, and keeps keys unique when the hub does. */
  lemma DimCountryMirrorsHub(hub: seq<HubRow<Option<string>>>)
    ensures |DimCountryRows(hub)| == |hub|
    ensures KeySet(DimCountryRows(hub), DimCountryKey) == KeySet(hub, HubRowKey)
    ensures UniqueKeys(hub, HubRowKey) ==> UniqueKeys(DimCountryRows(hub), DimCountryKey)
  {
    var r := DimCountryRows(hub);
    forall k | k in KeySet(r, DimCountryKey) ensures k in KeySet(hub, HubRowKey) {
      var j :| 0 <= j < |r| && DimCountryKey(r[j]) == k;
      assert hub[j] in hub;
    }
  }

  // --- The mart tables -----------------------------------------------------------

  function InvoiceLinksOf(v: VaultTables): InvoiceLinks
    reads v
  {
    InvoiceLinks(v.linkInvoiceProduct, v.linkInvoiceCustomer, v.linkInvoiceTime, v.linkInvoiceCountry)
  }

  /** The marts schema; every task truncates one table and refills it from the vault. */
  class MartTables {
    var factSales: seq<FactRow>
    var factSaleReturns: seq<FactRow>
    var dimProduct: seq<DimProductRow>
    var dimCustomer: seq<DimCustomerRow>
    var dimTime: seq<DimTimeRow>
    var dimCountry: seq<DimCountryRow>

    constructor()
      ensures factSales == [] && factSaleReturns == []
      ensures dimProduct == [] && dimCustomer == [] && dimTime == [] && dimCountry == []
    {
      factSales, factSaleReturns := [], [];
      dimProduct, dimCustomer, dimTime, dimCountry := [], [], [], [];
    }

    method FactSales(vault: VaultTables)
      modifies this`factSales
      ensures factSales == FactRows(vault.hubInvoice, vault.satInvoice, InvoiceLinksOf(vault), Normal)
    {
      var rows := FactRows(vault.hubInvoice, vault.satInvoice, InvoiceLinksOf(vault), Normal);
      factSales := [];
      AppendToEmpty(rows);
      factSales := factSales + rows;
    }

    method FactSaleReturns(vault: VaultTables)
      modifies this`factSaleReturns
      ensures factSaleReturns == FactRows(vault.hubInvoice, vault.satInvoice, InvoiceLinksOf(vault), Return)
    {
      var rows := FactRows(vault.hubInvoice, vault.satInvoice, InvoiceLinksOf(vault), Return);
      factSaleReturns := [];
      AppendToEmpty(rows);
      factSaleReturns := factSaleReturns + rows;
    }

    method DimProduct(vault: VaultTables)
      modifies this`dimProduct
      ensures dimProduct == DimProductRows(vault.hubProduct, vault.satProduct)
    {
      var rows := DimProductRows(vault.hubProduct, vault.satProduct);
      dimProduct := [];
      AppendToEmpty(rows);
      dimProduct := dimProduct + rows;
    }

    method DimCustomer(vault: VaultTables)
      modifies this`dimCustomer
      ensures dimCustomer == DimCustomerRows(vault.hubCustomer, vault.linkCustomerCountry)
    {
      var rows := DimCustomerRows(vault.hubCustomer, vault.linkCustomerCountry);
      dimCustomer := [];
      AppendToEmpty(rows);
      dimCustomer := dimCustomer + rows;
    }

    method DimTime(vault: VaultTables)
      modifies this`dimTime
      ensures dimTime == DimTimeRows(vault.hubTime, vault.satTime)
    {
      var rows := DimTimeRows(vault.hubTime, vault.satTime);
      dimTime := [];
      AppendToEmpty(rows);
      dimTime := dimTime + rows;
    }

    method DimCountry(vault: VaultTables)
      modifies this`dimCountry
      ensures dimCountry == DimCountryRows(vault.hubCountry)
    {
      var rows := DimCountryRows(vault.hubCountry);
      dimCountry := [];
      AppendToEmpty(rows);
      dimCountry := dimCountry + rows;
    }
  }
}

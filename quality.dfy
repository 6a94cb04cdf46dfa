/**
 * The anomaly marker (online_retails/tasks/quality/marker.py).
 *
 * anomaly_customer_invoioces truncates quality.anomaly_customer_invoioces
 * and refills it with every sale whose invoice is linked to the unknown
 * customer (CustomerID 0, the value the staging step gives a missing
 * CustomerID).  All its joins are inner joins: a sale appears only when it
 * has a product, a time and a country link as well, and it appears once per
 * combination of those links.  sat_invoice is read without a ReturnStatus
 * filter, so credit notes are marked too.
 */
module Quality {
  import opened Tables
  import opened HashKeys
  import opened Entities
  import opened Staging
  import opened Vault
  import opened Marts

  /** A row of anomaly_customer_invoioces: the fact columns, every dimension key present. */
  datatype AnomalyRow = AnomalyRow(
    saleId: Key, invoiceNo: Option<string>,
    productKey: Key, customerKey: Key, timeKey: Key, countryKey: Key,
    quantity: int, unitPrice: Float, totalAmount: Float)

  /** The CTE hub_customer: the hub rows WHERE CustomerID = 0. */
  function UnknownCustomers(hub: seq<HubRow<int>>): (r: seq<HubRow<int>>)
    ensures forall c :: c in r <==> c in hub && c.payload == UnknownCustomer
  {
    Filter(hub, (c: HubRow<int>) => c.payload == UnknownCustomer)
  }

  /** "JOIN link ON invoice key": the other key of every link row of invoice k. */
  function LinkedKeys(link: seq<LinkRow>, k: Key): seq<Key> {
    Project(Matching(link, LinkLeft, k), LinkRight)
  }

  lemma LinkedKeysMembers(link: seq<LinkRow>, k: Key, v: Key)
    ensures v in LinkedKeys(link, k) <==> exists x :: x in link && x.left == k && x.right == v
  {
    var m := Matching(link, LinkLeft, k);
    if exists x :: x in link && x.left == k && x.right == v {
      var x :| x in link && x.left == k && x.right == v;
      assert x in m;
    }
  }

  function CustomerKeyOf(t: (LinkRow, HubRow<int>)): Key { t.1.key }

  /**
   * "JOIN link_invoice_customer lic ... JOIN hub_customer c ON
   * lic.hub_customer_hash_key = c.hub_customer_hash_key": the key of every
   * unknown-customer hub row linked to invoice k, once per link row and hub row.
   */
  function UnknownCustomerKeys(hub: seq<HubRow<int>>, lic: seq<LinkRow>, k: Key): seq<Key> {
    Project(JoinPairs(Matching(lic, LinkLeft, k), UnknownCustomers(hub), LinkRight, HubRowKey), CustomerKeyOf)
  }

  /** A customer key belongs to invoice k exactly when a link row joins them and a hub row gives it CustomerID 0. */
  lemma UnknownCustomerKeysMembers(hub: seq<HubRow<int>>, lic: seq<LinkRow>, k: Key, v: Key)
    ensures v in UnknownCustomerKeys(hub, lic, k) <==>
      (exists x :: x in lic && x.left == k && x.right == v) && (exists c :: c in hub && c.key == v && c.payload == UnknownCustomer)
  {
    var m := Matching(lic, LinkLeft, k);
    var pairs := JoinPairs(m, UnknownCustomers(hub), LinkRight, HubRowKey);
    if v in UnknownCustomerKeys(hub, lic, k) {
      var t :| t in pairs && v == CustomerKeyOf(t);
      assert (t.0, t.1) in pairs;
    }
    if (exists x :: x in lic && x.left == k && x.right == v) && (exists c :: c in hub && c.key == v && c.payload == UnknownCustomer) {
      var x :| x in lic && x.left == k && x.right == v;
      var c :| c in hub && c.key == v && c.payload == UnknownCustomer;
      assert x in m && c in UnknownCustomers(hub);
      assert (x, c) in pairs;
      assert CustomerKeyOf((x, c)) == v;
    }
  }

  /** Every combination of product, customer, time and country key invoice k joins to. */
  function AnomalyChoices(hub: seq<HubRow<int>>, links: InvoiceLinks, k: Key): seq<(Key, Key, Key, Key)> {
    Combos(LinkedKeys(links.product, k), UnknownCustomerKeys(hub, links.customer, k), LinkedKeys(links.time, k), LinkedKeys(links.country, k))
  }

  /** The SELECT list: the hub's key and InvoiceNo, the joined keys, the satellite's measures. */
  function MakeAnomaly(i: HubRow<InvoiceRef>, s: SatRow<InvoiceAttrs>, t: (Key, Key, Key, Key)): AnomalyRow {
    AnomalyRow(i.key, i.payload.invoiceNo, t.0, t.1, t.2, t.3, s.payload.quantity, s.payload.unitPrice, s.payload.totalAmount)
  }

  function KeysOf(x: AnomalyRow): (Key, Key, Key, Key) {
    (x.productKey, x.customerKey, x.timeKey, x.countryKey)
  }

  /** The rows one matched hub_invoice and sat_invoice pair contributes. */
  function PairAnomalies(i: HubRow<InvoiceRef>, s: SatRow<InvoiceAttrs>, hub: seq<HubRow<int>>, links: InvoiceLinks): seq<AnomalyRow> {
    Project(AnomalyChoices(hub, links, i.key), (t: (Key, Key, Key, Key)) => MakeAnomaly(i, s, t))
  }

  lemma PairAnomaliesMembers(i: HubRow<InvoiceRef>, s: SatRow<InvoiceAttrs>, hub: seq<HubRow<int>>, links: InvoiceLinks, x: AnomalyRow)
    ensures x in PairAnomalies(i, s, hub, links) <==> x == MakeAnomaly(i, s, KeysOf(x)) && KeysOf(x) in AnomalyChoices(hub, links, i.key)
  {
    var q := AnomalyChoices(hub, links, i.key);
    var r := PairAnomalies(i, s, hub, links);
    if x in r {
      var j :| 0 <= j < |r| && r[j] == x;
      assert q[j] in q && KeysOf(x) == q[j];
    }
  }

  /** FROM hub_invoice i JOIN sat_invoice s ON the invoice key, with no ReturnStatus filter. */
  function InvoicePairs(hubInvoice: seq<HubRow<InvoiceRef>>, sat: seq<SatRow<InvoiceAttrs>>): seq<(HubRow<InvoiceRef>, SatRow<InvoiceAttrs>)> {
    JoinPairs(hubInvoice, sat, HubRowKey, SatRowKey)
  }

  /** The SELECT of anomaly_customer_invoioces. */
  function AnomalyRows(hubInvoice: seq<HubRow<InvoiceRef>>, sat: seq<SatRow<InvoiceAttrs>>, hubCustomer: seq<HubRow<int>>, links: InvoiceLinks)
    : seq<AnomalyRow>
  {
    FlatMap(InvoicePairs(hubInvoice, sat),
      (t: (HubRow<InvoiceRef>, SatRow<InvoiceAttrs>)) => PairAnomalies(t.0, t.1, hubCustomer, links))
  }

  /**
   * The row x is what the hub row i, the satellite row s and one link of each
   * kind produce, the customer link reaching a hub_customer row with CustomerID 0.
   */
  ghost predicate Marked(x: AnomalyRow, i: HubRow<InvoiceRef>, s: SatRow<InvoiceAttrs>, hubCustomer: seq<HubRow<int>>, links: InvoiceLinks) {
    i.key == s.key && x == MakeAnomaly(i, s, KeysOf(x)) && KeysOf(x) in AnomalyChoices(hubCustomer, links, i.key)
  }

  lemma {:induction false} AnomalyIsMarked(
    hubInvoice: seq<HubRow<InvoiceRef>>, sat: seq<SatRow<InvoiceAttrs>>, hubCustomer: seq<HubRow<int>>, links: InvoiceLinks, x: AnomalyRow)
    requires x in AnomalyRows(hubInvoice, sat, hubCustomer, links)
    ensures exists i, s :: i in hubInvoice && s in sat && Marked(x, i, s, hubCustomer, links)
  {
    var pairs := InvoicePairs(hubInvoice, sat);
    var f := (t: (HubRow<InvoiceRef>, SatRow<InvoiceAttrs>)) => PairAnomalies(t.0, t.1, hubCustomer, links);
    FlatMapMembers(pairs, f, x);
    var t :| t in pairs && x in f(t);
    PairAnomaliesMembers(t.0, t.1, hubCustomer, links, x);
    assert (t.0, t.1) in pairs;
    assert t.0 in hubInvoice && t.1 in sat && Marked(x, t.0, t.1, hubCustomer, links);
  }

  lemma {:induction false} MarkedIsAnomaly(
    hubInvoice: seq<HubRow<InvoiceRef>>, sat: seq<SatRow<InvoiceAttrs>>, hubCustomer: seq<HubRow<int>>, links: InvoiceLinks,
    i: HubRow<InvoiceRef>, s: SatRow<InvoiceAttrs>, x: AnomalyRow)
    requires i in hubInvoice && s in sat && Marked(x, i, s, hubCustomer, links)
    ensures x in AnomalyRows(hubInvoice, sat, hubCustomer, links)
  {
    var pairs := InvoicePairs(hubInvoice, sat);
    var f := (t: (HubRow<InvoiceRef>, SatRow<InvoiceAttrs>)) => PairAnomalies(t.0, t.1, hubCustomer, links);
    PairAnomaliesMembers(i, s, hubCustomer, links, x);
    assert (i, s) in pairs && x in f((i, s));
    FlatMapMembers(pairs, f, x);
  }

  /** A row is marked exactly when a matched hub and satellite row and their links produce it. */
  lemma AnomalyRowsMembers(
    hubInvoice: seq<HubRow<InvoiceRef>>, sat: seq<SatRow<InvoiceAttrs>>, hubCustomer: seq<HubRow<int>>, links: InvoiceLinks, x: AnomalyRow)
    ensures x in AnomalyRows(hubInvoice, sat, hubCustomer, links) <==>
      exists i, s :: i in hubInvoice && s in sat && Marked(x, i, s, hubCustomer, links)
  {
    if x in AnomalyRows(hubInvoice, sat, hubCustomer, links) {
      AnomalyIsMarked(hubInvoice, sat, hubCustomer, links, x);
    }
    if exists i, s :: i in hubInvoice && s in sat && Marked(x, i, s, hubCustomer, links) {
      var i, s :| i in hubInvoice && s in sat && Marked(x, i, s, hubCustomer, links);
      MarkedIsAnomaly(hubInvoice, sat, hubCustomer, links, i, s, x);
    }
  }

  /** The four keys t are a combination for invoice k exactly when each is linked to k, the customer being unknown. */
  lemma AnomalyChoicesMembers(hubCustomer: seq<HubRow<int>>, links: InvoiceLinks, k: Key, t: (Key, Key, Key, Key))
    ensures t in AnomalyChoices(hubCustomer, links, k) <==>
      t.0 in LinkedKeys(links.product, k) && t.1 in UnknownCustomerKeys(hubCustomer, links.customer, k) &&
      t.2 in LinkedKeys(links.time, k) && t.3 in LinkedKeys(links.country, k)
  {
    assert t == (t.0, t.1, t.2, t.3);
  }

  /**
   * Every marked row names a customer key that hub_customer holds with
   * CustomerID 0 and that link_invoice_customer links to the sale.
   */
  lemma MarkedCustomerIsUnknown(
    hubInvoice: seq<HubRow<InvoiceRef>>, sat: seq<SatRow<InvoiceAttrs>>, hubCustomer: seq<HubRow<int>>, links: InvoiceLinks, x: AnomalyRow)
    requires x in AnomalyRows(hubInvoice, sat, hubCustomer, links)
    ensures exists c :: c in hubCustomer && c.key == x.customerKey && c.payload == UnknownCustomer
    ensures exists l :: l in links.customer && l.left == x.saleId && l.right == x.customerKey
  {
    AnomalyIsMarked(hubInvoice, sat, hubCustomer, links, x);
    var i, s :| i in hubInvoice && s in sat && Marked(x, i, s, hubCustomer, links);
    AnomalyChoicesMembers(hubCustomer, links, i.key, KeysOf(x));
    UnknownCustomerKeysMembers(hubCustomer, links.customer, i.key, x.customerKey);
  }

  /**
   * Every marked row carries its hub_invoice row's InvoiceNo and its
   * sat_invoice row's measures, and its product, time and country keys are
   * ones those links give the sale.
   */
  lemma MarkedRowIsSourced(
    hubInvoice: seq<HubRow<InvoiceRef>>, sat: seq<SatRow<InvoiceAttrs>>, hubCustomer: seq<HubRow<int>>, links: InvoiceLinks, x: AnomalyRow)
    requires x in AnomalyRows(hubInvoice, sat, hubCustomer, links)
    ensures exists i, s ::
      i in hubInvoice && s in sat && i.key == x.saleId && s.key == x.saleId && x.invoiceNo == i.payload.invoiceNo &&
      x.quantity == s.payload.quantity && x.unitPrice == s.payload.unitPrice && x.totalAmount == s.payload.totalAmount
    ensures exists l :: l in links.product && l.left == x.saleId && l.right == x.productKey
    ensures exists l :: l in links.time && l.left == x.saleId && l.right == x.timeKey
    ensures exists l :: l in links.country && l.left == x.saleId && l.right == x.countryKey
  {
    AnomalyIsMarked(hubInvoice, sat, hubCustomer, links, x);
    var i, s :| i in hubInvoice && s in sat && Marked(x, i, s, hubCustomer, links);
    AnomalyChoicesMembers(hubCustomer, links, i.key, KeysOf(x));
    LinkedKeysMembers(links.product, i.key, x.productKey);
    LinkedKeysMembers(links.time, i.key, x.timeKey);
    LinkedKeysMembers(links.country, i.key, x.countryKey);
  }

  /**
   * The inner joins drop a sale that lacks any of the four links: an invoice
   * with no product, customer, time or country link is never marked.
   */
  lemma UnlinkedSaleIsNotMarked(
    hubInvoice: seq<HubRow<InvoiceRef>>, sat: seq<SatRow<InvoiceAttrs>>, hubCustomer: seq<HubRow<int>>, links: InvoiceLinks, k: Key)
    requires k !in KeySet(links.product, LinkLeft) || k !in KeySet(links.customer, LinkLeft) ||
      k !in KeySet(links.time, LinkLeft) || k !in KeySet(links.country, LinkLeft)
    ensures forall x :: x in AnomalyRows(hubInvoice, sat, hubCustomer, links) ==> x.saleId != k
  {
    forall x | x in AnomalyRows(hubInvoice, sat, hubCustomer, links) ensures x.saleId != k {
      MarkedCustomerIsUnknown(hubInvoice, sat, hubCustomer, links, x);
      MarkedRowIsSourced(hubInvoice, sat, hubCustomer, links, x);
    }
  }

  /**
   * A sale linked to a hub_customer row with CustomerID 0, and to a product,
   * a time and a country, is marked with those keys, whatever its
   * ReturnStatus: credit notes are marked like invoices.
   */
  lemma FullyLinkedUnknownSaleIsMarked(
    hubInvoice: seq<HubRow<InvoiceRef>>, sat: seq<SatRow<InvoiceAttrs>>, hubCustomer: seq<HubRow<int>>, links: InvoiceLinks,
    i: HubRow<InvoiceRef>, s: SatRow<InvoiceAttrs>, p: LinkRow, lc: LinkRow, c: HubRow<int>, t: LinkRow, co: LinkRow)
    requires i in hubInvoice && s in sat && i.key == s.key
    requires p in links.product && lc in links.customer && t in links.time && co in links.country
    requires p.left == i.key && lc.left == i.key && t.left == i.key && co.left == i.key
    requires c in hubCustomer && c.payload == UnknownCustomer && lc.right == c.key
    ensures MakeAnomaly(i, s, (p.right, c.key, t.right, co.right)) in AnomalyRows(hubInvoice, sat, hubCustomer, links)
  {
    var keys := (p.right, c.key, t.right, co.right);
    var x := MakeAnomaly(i, s, keys);
    LinkedKeysMembers(links.product, i.key, p.right);
    UnknownCustomerKeysMembers(hubCustomer, links.customer, i.key, c.key);
    LinkedKeysMembers(links.time, i.key, t.right);
    LinkedKeysMembers(links.country, i.key, co.right);
    AnomalyChoicesMembers(hubCustomer, links, i.key, keys);
    assert KeysOf(x) == keys;
    MarkedIsAnomaly(hubInvoice, sat, hubCustomer, links, i, s, x);
  }

  /** The fact row that carries the same columns, every dimension key present. */
  function FactOf(x: AnomalyRow): FactRow {
    FactRow(x.saleId, x.invoiceNo, Some(x.productKey), Some(x.customerKey), Some(x.timeKey), Some(x.countryKey),
      x.quantity, x.unitPrice, x.totalAmount)
  }

  /** A key an inner join gives is also one the matching left join gives. */
  lemma LinkedKeyIsLinked(link: seq<LinkRow>, k: Key, v: Key)
    requires v in LinkedKeys(link, k)
    ensures Some(v) in Linked(link, k)
  {
    LinkedKeysMembers(link, k, v);
  }

  /** A combination of the inner joins is a combination of the fact table's left joins. */
  lemma AnomalyChoiceIsDimensionChoice(hubCustomer: seq<HubRow<int>>, links: InvoiceLinks, k: Key, t: (Key, Key, Key, Key))
    requires t in AnomalyChoices(hubCustomer, links, k)
    ensures Dimensions(Some(t.0), Some(t.1), Some(t.2), Some(t.3)) in DimensionChoices(links, k)
  {
    AnomalyChoicesMembers(hubCustomer, links, k, t);
    LinkedKeyIsLinked(links.product, k, t.0);
    UnknownCustomerKeysMembers(hubCustomer, links.customer, k, t.1);
    LinkedKeysMembers(links.customer, k, t.1);
    LinkedKeyIsLinked(links.customer, k, t.1);
    LinkedKeyIsLinked(links.time, k, t.2);
    LinkedKeyIsLinked(links.country, k, t.3);
    DimensionChoicesMembers(links, k, Dimensions(Some(t.0), Some(t.1), Some(t.2), Some(t.3)));
  }

  lemma MarkedIsFed(x: AnomalyRow, i: HubRow<InvoiceRef>, s: SatRow<InvoiceAttrs>, hubCustomer: seq<HubRow<int>>, links: InvoiceLinks)
    requires Marked(x, i, s, hubCustomer, links)
    ensures FedBy(FactOf(x), i, s, links, s.payload.returnStatus)
  {
    var t := KeysOf(x);
    AnomalyChoiceIsDimensionChoice(hubCustomer, links, i.key, t);
    var d := Dimensions(Some(t.0), Some(t.1), Some(t.2), Some(t.3));
    assert DimensionsOf(FactOf(x)) == d;
    assert FactOf(x) == MakeFact(i, s, d);
  }

  /**
   * Built from the same vault, every marked row is a row of the fact table
   * of its sat_invoice row's ReturnStatus (Fact_Sales or Fact_Sale_Returns):
   * the marker selects, among the sales the marts hold, those of the unknown
   * customer with no NULL dimension key.
   */
  lemma MarkedRowIsAFact(
    hubInvoice: seq<HubRow<InvoiceRef>>, sat: seq<SatRow<InvoiceAttrs>>, hubCustomer: seq<HubRow<int>>, links: InvoiceLinks,
    i: HubRow<InvoiceRef>, s: SatRow<InvoiceAttrs>, x: AnomalyRow)
    requires i in hubInvoice && s in sat && Marked(x, i, s, hubCustomer, links)
    ensures FactOf(x) in FactRows(hubInvoice, sat, links, s.payload.returnStatus)
  {
    MarkedIsFed(x, i, s, hubCustomer, links);
    FedRowIsFact(hubInvoice, sat, links, s.payload.returnStatus, i, s, FactOf(x));
  }

  /** The quality schema. */
  class QualityTables {
    var anomalyCustomerInvoices: seq<AnomalyRow>

    constructor()
      ensures anomalyCustomerInvoices == []
    {
      anomalyCustomerInvoices := [];
    }

    /** anomaly_customer_invoioces: TRUNCATE, then INSERT the SELECT over the vault. */
    method AnomalyCustomerInvoices(vault: VaultTables)
      modifies this`anomalyCustomerInvoices
      ensures anomalyCustomerInvoices == AnomalyRows(vault.hubInvoice, vault.satInvoice, vault.hubCustomer, InvoiceLinksOf(vault))
    {
      var rows := AnomalyRows(vault.hubInvoice, vault.satInvoice, vault.hubCustomer, InvoiceLinksOf(vault));
      anomalyCustomerInvoices := [];
      AppendToEmpty(rows);
      anomalyCustomerInvoices := anomalyCustomerInvoices + rows;
    }
  }
}

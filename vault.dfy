/**
 * The Data Vault layer (online_retails/tasks/vault/load_hubs.py,
 * load_links.py, load_sats.py).
 *
 * Every loader is one statement of the same shape:
 *
 *   INSERT INTO vault.T SELECT DISTINCT <columns> FROM raw.psa_online_retails
 *   WHERE <key> NOT IN (SELECT <key> FROM vault.T)
 *
 * so each is Tables.InsertMissing over the projection of the staged rows
 * onto the table's columns.  Hubs and links are keyed by their own key;
 * a satellite is keyed by the key of the hub it describes.
 */
module Vault {
  import opened Tables
  import opened HashKeys
  import opened Entities
  import opened Staging

  /** A hub row: the key, the business payload, LOAD_DATETIME and RECORD_SOURCE. */
  datatype HubRow<P> = HubRow(key: Key, payload: P, loadDatetime: Timestamp, recordSource: string)

  /** The payload of hub_invoice. */
  datatype InvoiceRef = InvoiceRef(invoiceNo: Option<string>, invoiceDate: Timestamp)

  /** A link row: its key, the keys of its two member hubs, LOAD_DATETIME and RECORD_SOURCE. */
  datatype LinkRow = LinkRow(key: Key, left: Key, right: Key, loadDatetime: Timestamp, recordSource: string)

  /** A satellite row, keyed by the key of the hub it describes. */
  datatype SatRow<P> = SatRow(key: Key, payload: P, effectiveFrom: Timestamp, loadDatetime: Timestamp, recordSource: string)

  /** The payload of sat_invoice. */
  datatype InvoiceAttrs = InvoiceAttrs(quantity: int, unitPrice: Float, totalAmount: Float, returnStatus: ReturnStatus)

  /** The payload of sat_time. */
  datatype TimeAttrs = TimeAttrs(date: Date, year: int, month: int, dayOfWeek: int)

  /** ClickHouse's toDate, toYear, toMonth and toDayOfWeek. */
  datatype Calendar = Calendar(
    toDate: Timestamp -> Date,
    toYear: Timestamp -> int,
    toMonth: Timestamp -> int,
    toDayOfWeek: Timestamp -> int)

  function HubRowKey<P>(r: HubRow<P>): Key { r.key }

  function LinkRowKey(r: LinkRow): Key { r.key }

  function SatRowKey<P>(r: SatRow<P>): Key { r.key }

  // --- The SELECT lists of the loaders, row by row ------------------------------

  function InvoiceHubRow(r: StagedRow): HubRow<InvoiceRef> {
    HubRow(r.hubInvoiceKey, InvoiceRef(r.invoiceNo, r.invoiceDate), r.loadDatetime, r.recordSource)
  }

  function ProductHubRow(r: StagedRow): HubRow<string> {
    HubRow(r.hubProductKey, r.stockCode, r.loadDatetime, r.recordSource)
  }

  function CustomerHubRow(r: StagedRow): HubRow<int> {
    HubRow(r.hubCustomerKey, r.customerId, r.loadDatetime, r.recordSource)
  }

  function TimeHubRow(r: StagedRow): HubRow<Timestamp> {
    HubRow(r.hubTimeKey, r.invoiceDate, r.loadDatetime, r.recordSource)
  }

  function CountryHubRow(r: StagedRow): HubRow<Option<string>> {
    HubRow(r.hubCountryKey, r.country, r.loadDatetime, r.recordSource)
  }

  function LinkRowOf(r: StagedRow, l: LinkKind): LinkRow {
    LinkRow(LinkKey(r, l), HubKey(r, Members(l).0), HubKey(r, Members(l).1), r.loadDatetime, r.recordSource)
  }

  /** sat_invoice: LOAD_DATETIME AS EFFECTIVE_FROM. */
  function InvoiceSatRow(r: StagedRow): SatRow<InvoiceAttrs> {
    SatRow(r.hubInvoiceKey, InvoiceAttrs(r.quantity, r.unitPrice, r.totalAmount, r.returnStatus),
      r.loadDatetime, r.loadDatetime, r.recordSource)
  }

  function ProductSatRow(r: StagedRow): SatRow<Option<string>> {
    SatRow(r.hubProductKey, r.description, r.loadDatetime, r.loadDatetime, r.recordSource)
  }

  /** The calendar attributes of sat_time, computed from InvoiceDate alone. */
  function TimeAttrsOf(cal: Calendar, t: Timestamp): TimeAttrs {
    TimeAttrs(cal.toDate(t), cal.toYear(t), cal.toMonth(t), cal.toDayOfWeek(t))
  }

  function TimeSatRow(cal: Calendar, r: StagedRow): SatRow<TimeAttrs> {
    SatRow(r.hubTimeKey, TimeAttrsOf(cal, r.invoiceDate), r.loadDatetime, r.loadDatetime, r.recordSource)
  }

  // --- The candidate rows of each loader (before DISTINCT) ----------------------

  function InvoiceHubCandidates(psa: seq<StagedRow>): (c: seq<HubRow<InvoiceRef>>)
    ensures KeySet(c, HubRowKey) == StagedHubKeys(psa, InvoiceHub)
  {
    Project(psa, InvoiceHubRow)
  }

  function ProductHubCandidates(psa: seq<StagedRow>): (c: seq<HubRow<string>>)
    ensures KeySet(c, HubRowKey) == StagedHubKeys(psa, ProductHub)
  {
    Project(psa, ProductHubRow)
  }

  function CustomerHubCandidates(psa: seq<StagedRow>): (c: seq<HubRow<int>>)
    ensures KeySet(c, HubRowKey) == StagedHubKeys(psa, CustomerHub)
  {
    Project(psa, CustomerHubRow)
  }

  function TimeHubCandidates(psa: seq<StagedRow>): (c: seq<HubRow<Timestamp>>)
    ensures KeySet(c, HubRowKey) == StagedHubKeys(psa, TimeHub)
  {
    Project(psa, TimeHubRow)
  }

  function CountryHubCandidates(psa: seq<StagedRow>): (c: seq<HubRow<Option<string>>>)
    ensures KeySet(c, HubRowKey) == StagedHubKeys(psa, CountryHub)
  {
    Project(psa, CountryHubRow)
  }

  /**
   * The candidates of a link: one per staged row, carrying the member hub
   * keys of that same row next to the link key derived from them.
   */
  function LinkCandidates(psa: seq<StagedRow>, l: LinkKind): (c: seq<LinkRow>)
    ensures KeySet(c, LinkRowKey) == StagedLinkKeys(psa, l)
    ensures |c| == |psa| && forall i :: 0 <= i < |psa| ==> c[i] == LinkRowOf(psa[i], l)
  {
    Project(psa, r => LinkRowOf(r, l))
  }

  function InvoiceSatCandidates(psa: seq<StagedRow>): (c: seq<SatRow<InvoiceAttrs>>)
    ensures KeySet(c, SatRowKey) == StagedHubKeys(psa, InvoiceHub)
    ensures forall x :: x in c ==> x.effectiveFrom == x.loadDatetime
  {
    Project(psa, InvoiceSatRow)
  }

  function ProductSatCandidates(psa: seq<StagedRow>): (c: seq<SatRow<Option<string>>>)
    ensures KeySet(c, SatRowKey) == StagedHubKeys(psa, ProductHub)
    ensures forall x :: x in c ==> x.effectiveFrom == x.loadDatetime
  {
    Project(psa, ProductSatRow)
  }

  function TimeSatCandidates(cal: Calendar, psa: seq<StagedRow>): (c: seq<SatRow<TimeAttrs>>)
    ensures KeySet(c, SatRowKey) == StagedHubKeys(psa, TimeHub)
    ensures forall x :: x in c ==> x.effectiveFrom == x.loadDatetime
  {
    Project(psa, r => TimeSatRow(cal, r))
  }

  // --- Referential integrity --------------------------------------------------

  /** Every link row references keys of the two given key sets. */
  ghost predicate References(links: seq<LinkRow>, left: set<Key>, right: set<Key>) {
    forall x :: x in links ==> x.left in left && x.right in right
  }

  /**
   * A link load keeps the link's references resolvable once both member hubs
   * hold every staged key: the new rows reference keys of the same staged
   * rows.
   */
  lemma {:induction false} LinkLoadKeepsReferences(links: seq<LinkRow>, psa: seq<StagedRow>, l: LinkKind, left: set<Key>, right: set<Key>)
    requires References(links, left, right)
    requires StagedHubKeys(psa, Members(l).0) <= left && StagedHubKeys(psa, Members(l).1) <= right
    ensures References(InsertMissing(links, LinkCandidates(psa, l), LinkRowKey), left, right)
  {
    var c := LinkCandidates(psa, l);
    var added := NewRows(links, c, LinkRowKey);
    forall x | x in added ensures x.left in left && x.right in right {
      LinkCandidateReferencesStagedKeys(psa, l, x);
    }
  }

  /** A link candidate references hub keys that the staged table carries. */
  lemma LinkCandidateReferencesStagedKeys(psa: seq<StagedRow>, l: LinkKind, x: LinkRow)
    requires x in LinkCandidates(psa, l)
    ensures x.left in StagedHubKeys(psa, Members(l).0) && x.right in StagedHubKeys(psa, Members(l).1)
  {
    var c := LinkCandidates(psa, l);
    var i :| 0 <= i < |c| && c[i] == x;
    var r := psa[i];
    assert r in psa && x == LinkRowOf(r, l);
    StagedKeyIn(psa, r, Members(l).0);
    StagedKeyIn(psa, r, Members(l).1);
  }

  /** References into key sets stay valid when the key sets grow. */
  lemma ReferencesWiden(links: seq<LinkRow>, left: set<Key>, right: set<Key>, left2: set<Key>, right2: set<Key>)
    requires References(links, left, right) && left <= left2 && right <= right2
    ensures References(links, left2, right2)
  {
  }

  /** The schema vault: the five hubs, the five links and the three satellites. */
  class VaultTables {
    var hubInvoice: seq<HubRow<InvoiceRef>>
    var hubProduct: seq<HubRow<string>>
    var hubCustomer: seq<HubRow<int>>
    var hubTime: seq<HubRow<Timestamp>>
    var hubCountry: seq<HubRow<Option<string>>>
    var linkInvoiceProduct: seq<LinkRow>
    var linkInvoiceCustomer: seq<LinkRow>
    var linkInvoiceTime: seq<LinkRow>
    var linkInvoiceCountry: seq<LinkRow>
    var linkCustomerCountry: seq<LinkRow>
    var satInvoice: seq<SatRow<InvoiceAttrs>>
    var satProduct: seq<SatRow<Option<string>>>
    var satTime: seq<SatRow<TimeAttrs>>

    /** An empty vault. */
    constructor ()
      ensures hubInvoice == [] && hubProduct == [] && hubCustomer == [] && hubTime == [] && hubCountry == []
      ensures linkInvoiceProduct == [] && linkInvoiceCustomer == [] && linkInvoiceTime == []
      ensures linkInvoiceCountry == [] && linkCustomerCountry == []
      ensures satInvoice == [] && satProduct == [] && satTime == []
    {
      hubInvoice, hubProduct, hubCustomer, hubTime, hubCountry := [], [], [], [], [];
      linkInvoiceProduct, linkInvoiceCustomer, linkInvoiceTime := [], [], [];
      linkInvoiceCountry, linkCustomerCountry := [], [];
      satInvoice, satProduct, satTime := [], [], [];
    }

    // --- load_hubs.py ---------------------------------------------------------

    method HubInvoice(psa: PsaTable)
      modifies this`hubInvoice
      ensures hubInvoice == InsertMissing(old(hubInvoice), InvoiceHubCandidates(psa.rows), HubRowKey)
    {
      hubInvoice := hubInvoice + NewRows(hubInvoice, InvoiceHubCandidates(psa.rows), HubRowKey);
    }

    method HubProduct(psa: PsaTable)
      modifies this`hubProduct
      ensures hubProduct == InsertMissing(old(hubProduct), ProductHubCandidates(psa.rows), HubRowKey)
    {
      hubProduct := hubProduct + NewRows(hubProduct, ProductHubCandidates(psa.rows), HubRowKey);
    }

    method HubCustomer(psa: PsaTable)
      modifies this`hubCustomer
      ensures hubCustomer == InsertMissing(old(hubCustomer), CustomerHubCandidates(psa.rows), HubRowKey)
    {
      hubCustomer := hubCustomer + NewRows(hubCustomer, CustomerHubCandidates(psa.rows), HubRowKey);
    }

    method HubTime(psa: PsaTable)
      modifies this`hubTime
      ensures hubTime == InsertMissing(old(hubTime), TimeHubCandidates(psa.rows), HubRowKey)
    {
      hubTime := hubTime + NewRows(hubTime, TimeHubCandidates(psa.rows), HubRowKey);
    }

    method HubCountry(psa: PsaTable)
      modifies this`hubCountry
      ensures hubCountry == InsertMissing(old(hubCountry), CountryHubCandidates(psa.rows), HubRowKey)
    {
      hubCountry := hubCountry + NewRows(hubCountry, CountryHubCandidates(psa.rows), HubRowKey);
    }

    // --- load_links.py --------------------------------------------------------

    method LinkInvoiceProduct(psa: PsaTable)
      modifies this`linkInvoiceProduct
      ensures linkInvoiceProduct == InsertMissing(old(linkInvoiceProduct), LinkCandidates(psa.rows, InvoiceProduct), LinkRowKey)
    {
      linkInvoiceProduct := linkInvoiceProduct + NewRows(linkInvoiceProduct, LinkCandidates(psa.rows, InvoiceProduct), LinkRowKey);
    }

    method LinkInvoiceCustomer(psa: PsaTable)
      modifies this`linkInvoiceCustomer
      ensures linkInvoiceCustomer == InsertMissing(old(linkInvoiceCustomer), LinkCandidates(psa.rows, InvoiceCustomer), LinkRowKey)
    {
      linkInvoiceCustomer := linkInvoiceCustomer + NewRows(linkInvoiceCustomer, LinkCandidates(psa.rows, InvoiceCustomer), LinkRowKey);
    }

    method LinkInvoiceTime(psa: PsaTable)
      modifies this`linkInvoiceTime
      ensures linkInvoiceTime == InsertMissing(old(linkInvoiceTime), LinkCandidates(psa.rows, InvoiceTime), LinkRowKey)
    {
      linkInvoiceTime := linkInvoiceTime + NewRows(linkInvoiceTime, LinkCandidates(psa.rows, InvoiceTime), LinkRowKey);
    }

    method LinkInvoiceCountry(psa: PsaTable)
      modifies this`linkInvoiceCountry
      ensures linkInvoiceCountry == InsertMissing(old(linkInvoiceCountry), LinkCandidates(psa.rows, InvoiceCountry), LinkRowKey)
    {
      linkInvoiceCountry := linkInvoiceCountry + NewRows(linkInvoiceCountry, LinkCandidates(psa.rows, InvoiceCountry), LinkRowKey);
    }

    method LinkCustomerCountry(psa: PsaTable)
      modifies this`linkCustomerCountry
      ensures linkCustomerCountry == InsertMissing(old(linkCustomerCountry), LinkCandidates(psa.rows, CustomerCountry), LinkRowKey)
    {
      linkCustomerCountry := linkCustomerCountry + NewRows(linkCustomerCountry, LinkCandidates(psa.rows, CustomerCountry), LinkRowKey);
    }

    // --- load_sats.py ---------------------------------------------------------

    method SatInvoice(psa: PsaTable)
      modifies this`satInvoice
      ensures satInvoice == InsertMissing(old(satInvoice), InvoiceSatCandidates(psa.rows), SatRowKey)
    {
      satInvoice := satInvoice + NewRows(satInvoice, InvoiceSatCandidates(psa.rows), SatRowKey);
    }

    method SatProduct(psa: PsaTable)
      modifies this`satProduct
      ensures satProduct == InsertMissing(old(satProduct), ProductSatCandidates(psa.rows), SatRowKey)
    {
      satProduct := satProduct + NewRows(satProduct, ProductSatCandidates(psa.rows), SatRowKey);
    }

    method SatTime(psa: PsaTable, cal: Calendar)
      modifies this`satTime
      ensures satTime == InsertMissing(old(satTime), TimeSatCandidates(cal, psa.rows), SatRowKey)
    {
      satTime := satTime + NewRows(satTime, TimeSatCandidates(cal, psa.rows), SatRowKey);
    }
  }
}

/**
 * Staged record preparation (prepare_psa_online_retails in
 * online_retails/tasks/raw/extract_online_retails.py).
 *
 * The raw extract is cleaned, classified and decorated with the ten hash
 * keys, then replaces the contents of raw.psa_online_retails.  The
 * DataFrame operations of the source are column-wise; each is applied to
 * every row independently, so they are modelled as one function per row
 * (StageRow) mapped over the rows that survive dropna.
 */
module Staging {
  import opened Tables
  import opened HashKeys
  import opened Entities

  /** The RECORD_SOURCE stamped on every staged row. */
  const RecordSource: string := "UCI Online Retail II"

  /** The CustomerID that stands for an unknown customer. */
  const UnknownCustomer: int := 0

  /** A row of raw.online_retails; None is a missing (null) cell. */
  datatype RawRow = RawRow(
    invoiceNo: Option<string>,
    stockCode: Option<string>,
    description: Option<string>,
    quantity: int,
    invoiceDate: Option<Timestamp>,
    unitPrice: Float,
    customerId: Option<int>,
    country: Option<string>,
    totalAmount: Float)

  /** A row of raw.psa_online_retails. */
  datatype StagedRow = StagedRow(
    hubInvoiceKey: Key,
    hubProductKey: Key,
    hubCustomerKey: Key,
    hubTimeKey: Key,
    hubCountryKey: Key,
    linkInvoiceProductKey: Key,
    linkInvoiceCustomerKey: Key,
    linkInvoiceTimeKey: Key,
    linkInvoiceCountryKey: Key,
    linkCustomerCountryKey: Key,
    invoiceNo: Option<string>,
    stockCode: string,
    description: Option<string>,
    quantity: int,
    invoiceDate: Timestamp,
    unitPrice: Float,
    totalAmount: Float,
    customerId: int,
    country: Option<string>,
    returnStatus: ReturnStatus,
    loadDatetime: Timestamp,
    recordSource: string)

  /** The hub key column of a staged row for the given hub. */
  function HubKey(r: StagedRow, h: HubKind): Key {
    match h
    case InvoiceHub => r.hubInvoiceKey
    case ProductHub => r.hubProductKey
    case CustomerHub => r.hubCustomerKey
    case TimeHub => r.hubTimeKey
    case CountryHub => r.hubCountryKey
  }

  /** The link key column of a staged row for the given link. */
  function LinkKey(r: StagedRow, l: LinkKind): Key {
    match l
    case InvoiceProduct => r.linkInvoiceProductKey
    case InvoiceCustomer => r.linkInvoiceCustomerKey
    case InvoiceTime => r.linkInvoiceTimeKey
    case InvoiceCountry => r.linkInvoiceCountryKey
    case CustomerCountry => r.linkCustomerCountryKey
  }

  /**
   * What key derivation needs besides the row: the digest, and how
   * astype(str) renders a null cell, a timestamp and a customer id (the
   * rendering of those is Python's and is not modelled).  A string cell
   * renders as itself; a key cell renders as UuidText.
   */
  datatype KeyContext = KeyContext(
    sha: Sha256,
    nullText: string,
    timestampText: Timestamp -> string,
    customerIdText: int -> string)

  function TextCell(ctx: KeyContext, cell: Option<string>): string {
    if cell.Some? then cell.value else ctx.nullText
  }

  function TimestampCell(ctx: KeyContext, cell: Option<Timestamp>): string {
    if cell.Some? then ctx.timestampText(cell.value) else ctx.nullText
  }

  // --- line 115: dropna(subset=['StockCode', 'InvoiceDate']) -----------------

  predicate HasRequiredFields(x: RawRow) {
    x.stockCode.Some? && x.invoiceDate.Some?
  }

  /** The rows kept by dropna: a row is dropped exactly when StockCode or InvoiceDate is missing. */
  function DropMissing(raw: seq<RawRow>): (kept: seq<RawRow>)
    ensures forall x :: x in kept ==> x.stockCode.Some? && x.invoiceDate.Some?
    ensures forall x :: multiset(kept)[x] == if x.stockCode.Some? && x.invoiceDate.Some? then multiset(raw)[x] else 0
  {
    FilterMultiplicity(raw, HasRequiredFields);
    Filter(raw, HasRequiredFields)
  }

  // --- line 117: CustomerID.fillna(0) ----------------------------------------

  function CustomerIdOrUnknown(id: Option<int>): int {
    if id.Some? then id.value else UnknownCustomer
  }

  // --- lines 120-121: the return classification --------------------------------

  /** str.startswith('C', na=False): a null InvoiceNo does not start with 'C'. */
  predicate StartsWithCreditMarker(invoiceNo: Option<string>) {
    invoiceNo.Some? && |invoiceNo.value| > 0 && invoiceNo.value[0] == 'C'
  }

  function Classify(invoiceNo: Option<string>, quantity: int): ReturnStatus {
    if StartsWithCreditMarker(invoiceNo) || quantity < 0 then Return else Normal
  }

  // --- line 122: str.replace('C', '') ----------------------------------------

  /**
   * Every 'C' removed, wherever it stands.  Every other character is kept as
   * often as it occurs and in its order: see RemoveCCounts, RemoveCOne and
   * RemoveCAppend.
   */
  function RemoveC(s: string): (r: string)
    ensures 'C' !in r
    ensures forall c :: c != 'C' ==> (c in r <==> c in s)
    ensures 'C' !in s ==> r == s
    ensures |r| <= |s|
    decreases |s|
  {
    if |s| == 0 then ""
    else
      assert s == [s[0]] + s[1..];
      (if s[0] == 'C' then "" else [s[0]]) + RemoveC(s[1..])
  }

  /** Only the 'C's go: every other character keeps its number of occurrences. */
  lemma {:induction false} RemoveCCounts(s: string)
    ensures multiset(RemoveC(s)) == multiset(s)['C' := 0]
    decreases |s|
  {
    if |s| > 0 {
      assert s == [s[0]] + s[1..];
      RemoveCCounts(s[1..]);
    }
  }

  /** One character: a 'C' disappears, any other character stays. */
  lemma RemoveCOne(c: char)
    ensures RemoveC([c]) == if c == 'C' then "" else [c]
  {
    assert [c][1..] == [];
  }

  /** Removal works piecewise, so the kept characters stay in their order. */
  lemma {:induction false} RemoveCAppend(a: string, b: string)
    ensures RemoveC(a + b) == RemoveC(a) + RemoveC(b)
    decreases |a|
  {
    if |a| == 0 {
      assert a + b == b;
    } else {
      assert (a + b)[0] == a[0] && (a + b)[1..] == a[1..] + b;
      RemoveCAppend(a[1..], b);
    }
  }

  /** A leading credit marker is removed like any other 'C'. */
  lemma RemoveLeadingC(number: string)
    ensures RemoveC("C" + number) == RemoveC(number)
  {
    var s := "C" + number;
    assert s[0] == 'C' && s[1..] == number;
  }

  function StripCreditMarker(invoiceNo: Option<string>): Option<string> {
    if invoiceNo.Some? then Some(RemoveC(invoiceNo.value)) else None
  }

  // --- lines 128-137: the hash keys --------------------------------------------

  /** The key of a link: the digest of its two member keys' texts, in member order. */
  function LinkKeyOf(sha: Sha256, left: Key, right: Key): Key {
    HashKey(sha, [UuidText(left), UuidText(right)])
  }

  /** The hashed columns of a hub, on the row after stripping and fillna. */
  function HubColumns(ctx: KeyContext, h: HubKind): seq<RawRow -> string> {
    match h
    case InvoiceHub => [
        (x: RawRow) => TextCell(ctx, StripCreditMarker(x.invoiceNo)),
        (x: RawRow) => TextCell(ctx, x.stockCode),
        (x: RawRow) => TimestampCell(ctx, x.invoiceDate)]
    case ProductHub => [(x: RawRow) => TextCell(ctx, x.stockCode)]
    case CustomerHub => [(x: RawRow) => ctx.customerIdText(CustomerIdOrUnknown(x.customerId))]
    case TimeHub => [(x: RawRow) => TimestampCell(ctx, x.invoiceDate)]
    case CountryHub => [(x: RawRow) => TextCell(ctx, x.country)]
  }

  /** The cells a hub key hashes, for one kept row. */
  function HubCells(ctx: KeyContext, x: RawRow, h: HubKind): seq<string>
    requires HasRequiredFields(x)
  {
    match h
    case InvoiceHub => [TextCell(ctx, StripCreditMarker(x.invoiceNo)), x.stockCode.value, ctx.timestampText(x.invoiceDate.value)]
    case ProductHub => [x.stockCode.value]
    case CustomerHub => [ctx.customerIdText(CustomerIdOrUnknown(x.customerId))]
    case TimeHub => [ctx.timestampText(x.invoiceDate.value)]
    case CountryHub => [TextCell(ctx, x.country)]
  }

  /** On a kept row, the cells a hub key hashes are its listed columns. */
  lemma HubCellsAreListedColumns(ctx: KeyContext, x: RawRow, h: HubKind)
    requires HasRequiredFields(x)
    ensures HubCells(ctx, x, h) == Cells(x, HubColumns(ctx, h))
  {
  }

  /**
   * One row of the prepared DataFrame: classification on the raw
   * InvoiceNo, then stripping, then the five hub keys over the stripped and
   * filled columns, then the five link keys over the hub keys.
   */
  function StageRow(x: RawRow, now: Timestamp, ctx: KeyContext): (r: StagedRow)
    requires HasRequiredFields(x)
    ensures r.returnStatus == Return <==> StartsWithCreditMarker(x.invoiceNo) || x.quantity < 0
    ensures r.invoiceNo == StripCreditMarker(x.invoiceNo)
    ensures r.invoiceNo.Some? <==> x.invoiceNo.Some?
    ensures r.invoiceNo.Some? ==> 'C' !in r.invoiceNo.value
    ensures r.customerId == if x.customerId.Some? then x.customerId.value else 0
    ensures r.stockCode == x.stockCode.value && r.invoiceDate == x.invoiceDate.value
    ensures r.description == x.description && r.quantity == x.quantity && r.country == x.country
    ensures r.unitPrice == x.unitPrice && r.totalAmount == x.totalAmount
    ensures r.loadDatetime == now && r.recordSource == RecordSource
  {
    var status := Classify(x.invoiceNo, x.quantity);
    var invoiceNo := StripCreditMarker(x.invoiceNo);
    var customerId := CustomerIdOrUnknown(x.customerId);
    var invoiceKey := HashKey(ctx.sha, HubCells(ctx, x, InvoiceHub));
    var productKey := HashKey(ctx.sha, HubCells(ctx, x, ProductHub));
    var customerKey := HashKey(ctx.sha, HubCells(ctx, x, CustomerHub));
    var timeKey := HashKey(ctx.sha, HubCells(ctx, x, TimeHub));
    var countryKey := HashKey(ctx.sha, HubCells(ctx, x, CountryHub));
    StagedRow(
      invoiceKey, productKey, customerKey, timeKey, countryKey,
      LinkKeyOf(ctx.sha, invoiceKey, productKey),
      LinkKeyOf(ctx.sha, invoiceKey, customerKey),
      LinkKeyOf(ctx.sha, invoiceKey, timeKey),
      LinkKeyOf(ctx.sha, invoiceKey, countryKey),
      LinkKeyOf(ctx.sha, customerKey, countryKey),
      invoiceNo, x.stockCode.value, x.description, x.quantity, x.invoiceDate.value,
      x.unitPrice, x.totalAmount, customerId, x.country, status,
      now, RecordSource)
  }

  /**
   * The keys of a staged row: each hub key hashes that hub's cells, and
   * each link key hashes the texts of its two member hub keys in order.
   */
  lemma StagedKeys(x: RawRow, now: Timestamp, ctx: KeyContext)
    requires HasRequiredFields(x)
    ensures forall h :: HubKey(StageRow(x, now, ctx), h) == HashKey(ctx.sha, HubCells(ctx, x, h))
    ensures forall l ::
      LinkKey(StageRow(x, now, ctx), l) ==
      LinkKeyOf(ctx.sha, HubKey(StageRow(x, now, ctx), Members(l).0), HubKey(StageRow(x, now, ctx), Members(l).1))
  {
    var r := StageRow(x, now, ctx);
    forall h ensures HubKey(r, h) == HashKey(ctx.sha, HubCells(ctx, x, h)) {
      match h
      case InvoiceHub =>
      case ProductHub =>
      case CustomerHub =>
      case TimeHub =>
      case CountryHub =>
    }
    forall l ensures LinkKey(r, l) == LinkKeyOf(ctx.sha, HubKey(r, Members(l).0), HubKey(r, Members(l).1)) {
      match l
      case InvoiceProduct =>
      case InvoiceCustomer =>
      case InvoiceTime =>
      case InvoiceCountry =>
      case CustomerCountry =>
    }
  }

  /** The prepared DataFrame df_psa: one staged row per kept raw row, in order. */
  function PreparedRows(raw: seq<RawRow>, now: Timestamp, ctx: KeyContext): (rows: seq<StagedRow>)
    ensures |rows| == |DropMissing(raw)|
    ensures forall i :: 0 <= i < |rows| ==> rows[i] == StageRow(DropMissing(raw)[i], now, ctx)
    ensures forall r :: r in rows ==> r.loadDatetime == now && r.recordSource == RecordSource
  {
    var kept := DropMissing(raw);
    seq(|kept|, i requires 0 <= i < |kept| => assert kept[i] in kept; StageRow(kept[i], now, ctx))
  }

  /** The staging table raw.psa_online_retails. */
  class PsaTable {
    var rows: seq<StagedRow>

    constructor ()
      ensures rows == []
    {
      rows := [];
    }

    /**
     * prepare_psa_online_retails.  The prepared rows are validated first
     * (`schemaAccepts` stands for the pandera schema, which raises on a row
     * it rejects); a rejection ends the task before the truncate, leaving
     * the table as it was.  Otherwise the table is truncated and refilled,
     * so it holds exactly this run's rows.
     */
    method PreparePsaOnlineRetails(raw: seq<RawRow>, now: Timestamp, ctx: KeyContext, schemaAccepts: StagedRow -> bool)
      returns (ok: bool)
      modifies this
      ensures ok <==> forall r :: r in PreparedRows(raw, now, ctx) ==> schemaAccepts(r)
      ensures rows == if ok then PreparedRows(raw, now, ctx) else old(rows)
    {
      var prepared := PreparedRows(raw, now, ctx);
      ok := forall r :: r in prepared ==> schemaAccepts(r);
      if ok {
        rows := [];
        rows := rows + prepared;
      }
    }
  }

  // --- Properties ----------------------------------------------------------------

  /** A missing CustomerID is staged as the unknown customer, with the key of its text. */
  lemma MissingCustomerIsUnknown(x: RawRow, now: Timestamp, ctx: KeyContext)
    requires HasRequiredFields(x) && x.customerId.None?
    ensures StageRow(x, now, ctx).customerId == UnknownCustomer
    ensures StageRow(x, now, ctx).hubCustomerKey == HashKey(ctx.sha, [ctx.customerIdText(UnknownCustomer)])
  {
    StagedKeys(x, now, ctx);
  }

  /**
   * The invoice key hashes the stripped InvoiceNo, so a credit note and the
   * invoice with the same number, stock code and date share a key, while
   * only the credit note is classified Return.  The invoice number need only
   * not start with 'C' itself; any later 'C' is stripped from both alike.
   */
  lemma {:induction false} CreditNoteSharesInvoiceKey(credit: RawRow, invoice: RawRow, number: string, now: Timestamp, ctx: KeyContext)
    requires HasRequiredFields(credit) && HasRequiredFields(invoice)
    requires credit.invoiceNo == Some("C" + number) && invoice.invoiceNo == Some(number) && !StartsWithCreditMarker(Some(number))
    requires credit.stockCode == invoice.stockCode && credit.invoiceDate == invoice.invoiceDate
    ensures StageRow(credit, now, ctx).hubInvoiceKey == StageRow(invoice, now, ctx).hubInvoiceKey
    ensures StageRow(credit, now, ctx).invoiceNo == StageRow(invoice, now, ctx).invoiceNo == Some(RemoveC(number))
    ensures StageRow(credit, now, ctx).returnStatus == Return
    ensures StageRow(invoice, now, ctx).returnStatus == if invoice.quantity < 0 then Return else Normal
  {
    RemoveLeadingC(number);
    StagedKeys(credit, now, ctx);
    StagedKeys(invoice, now, ctx);
  }

  /** A credit-note line: "C536379" with a negative quantity is a Return staged as "536379". */
  lemma CreditNoteExample(x: RawRow, now: Timestamp, ctx: KeyContext)
    requires HasRequiredFields(x) && x.invoiceNo == Some("C536379") && x.quantity < 0
    ensures StageRow(x, now, ctx).returnStatus == Return
    ensures StageRow(x, now, ctx).invoiceNo == Some("536379")
  {
    var stripped := StripCreditMarker(x.invoiceNo);
    RemoveLeadingC("536379");
    assert "C" + "536379" == "C536379";
    assert 'C' !in "536379";
    assert stripped == Some("536379");
  }

  /** Two stagings of one row differ only in LOAD_DATETIME. */
  lemma StagingIgnoresLoadTime(x: RawRow, now1: Timestamp, now2: Timestamp, ctx: KeyContext)
    requires HasRequiredFields(x)
    ensures StageRow(x, now1, ctx) == StageRow(x, now2, ctx).(loadDatetime := now1)
  {
  }

  /** In particular the keys do not depend on the load time. */
  lemma KeysIgnoreLoadTime(x: RawRow, now1: Timestamp, now2: Timestamp, ctx: KeyContext)
    requires HasRequiredFields(x)
    ensures forall h :: HubKey(StageRow(x, now1, ctx), h) == HubKey(StageRow(x, now2, ctx), h)
    ensures forall l :: LinkKey(StageRow(x, now1, ctx), l) == LinkKey(StageRow(x, now2, ctx), l)
  {
    StagedKeys(x, now1, ctx);
    StagedKeys(x, now2, ctx);
  }

  /** Staging one extract at two load times gives the same rows but for LOAD_DATETIME. */
  lemma PreparedRowsIgnoreLoadTime(raw: seq<RawRow>, now1: Timestamp, now2: Timestamp, ctx: KeyContext)
    ensures |PreparedRows(raw, now1, ctx)| == |PreparedRows(raw, now2, ctx)|
    ensures forall i :: 0 <= i < |PreparedRows(raw, now1, ctx)| ==>
      PreparedRows(raw, now1, ctx)[i] == PreparedRows(raw, now2, ctx)[i].(loadDatetime := now1)
  {
    var kept := DropMissing(raw);
    forall i | 0 <= i < |kept|
      ensures PreparedRows(raw, now1, ctx)[i] == PreparedRows(raw, now2, ctx)[i].(loadDatetime := now1)
    {
      assert kept[i] in kept;
      StagingIgnoresLoadTime(kept[i], now1, now2, ctx);
    }
  }

  /**
   * Each hub key column of the prepared table is generate_hash_key of the
   * cleaned table over that hub's columns.
   */
  lemma PreparedHubKeysAreGenerated(raw: seq<RawRow>, now: Timestamp, ctx: KeyContext, h: HubKind)
    ensures forall i :: 0 <= i < |PreparedRows(raw, now, ctx)| ==>
      HubKey(PreparedRows(raw, now, ctx)[i], h) == GenerateHashKey(ctx.sha, DropMissing(raw), HubColumns(ctx, h))[i]
  {
    var kept := DropMissing(raw);
    forall i | 0 <= i < |kept|
      ensures HubKey(PreparedRows(raw, now, ctx)[i], h) == GenerateHashKey(ctx.sha, kept, HubColumns(ctx, h))[i]
    {
      assert kept[i] in kept;
      HubCellsAreListedColumns(ctx, kept[i], h);
    }
  }

  /** Every raw row that dropna keeps is staged in the prepared table. */
  lemma KeptRowIsStaged(raw: seq<RawRow>, x: RawRow, now: Timestamp, ctx: KeyContext)
    requires x in raw && HasRequiredFields(x)
    ensures StageRow(x, now, ctx) in PreparedRows(raw, now, ctx)
  {
    var kept := DropMissing(raw);
    assert x in kept;
    var i :| 0 <= i < |kept| && kept[i] == x;
    assert PreparedRows(raw, now, ctx)[i] == StageRow(x, now, ctx);
  }

  /** The hub keys a staged table carries for one hub. */
  function StagedHubKeys(psa: seq<StagedRow>, h: HubKind): set<Key> {
    set r | r in psa :: HubKey(r, h)
  }

  lemma StagedKeyIn(psa: seq<StagedRow>, r: StagedRow, h: HubKind)
    requires r in psa
    ensures HubKey(r, h) in StagedHubKeys(psa, h)
  {
  }

  /** The link keys a staged table carries for one link. */
  function StagedLinkKeys(psa: seq<StagedRow>, l: LinkKind): set<Key> {
    set r | r in psa :: LinkKey(r, l)
  }

  /** Two staged tables that agree row by row on a hub key carry the same set of that key. */
  lemma {:induction false} PointwiseHubKeys(a: seq<StagedRow>, b: seq<StagedRow>, h: HubKind)
    requires |a| == |b|
    requires forall i :: 0 <= i < |a| ==> HubKey(a[i], h) == HubKey(b[i], h)
    ensures StagedHubKeys(a, h) == StagedHubKeys(b, h)
  {
    forall k | k in StagedHubKeys(a, h) ensures k in StagedHubKeys(b, h) {
      var r :| r in a && HubKey(r, h) == k;
      var i :| 0 <= i < |a| && a[i] == r;
      assert b[i] in b;
    }
    forall k | k in StagedHubKeys(b, h) ensures k in StagedHubKeys(a, h) {
      var r :| r in b && HubKey(r, h) == k;
      var i :| 0 <= i < |b| && b[i] == r;
      assert a[i] in a;
    }
  }

  /** The same for a link key. */
  lemma {:induction false} PointwiseLinkKeys(a: seq<StagedRow>, b: seq<StagedRow>, l: LinkKind)
    requires |a| == |b|
    requires forall i :: 0 <= i < |a| ==> LinkKey(a[i], l) == LinkKey(b[i], l)
    ensures StagedLinkKeys(a, l) == StagedLinkKeys(b, l)
  {
    forall k | k in StagedLinkKeys(a, l) ensures k in StagedLinkKeys(b, l) {
      var r :| r in a && LinkKey(r, l) == k;
      var i :| 0 <= i < |a| && a[i] == r;
      assert b[i] in b;
    }
    forall k | k in StagedLinkKeys(b, l) ensures k in StagedLinkKeys(a, l) {
      var r :| r in b && LinkKey(r, l) == k;
      var i :| 0 <= i < |b| && b[i] == r;
      assert a[i] in a;
    }
  }

  /** Staging one extract at two load times yields the same keys of each hub. */
  lemma {:induction false} StagedHubKeysIgnoreLoadTime(raw: seq<RawRow>, now1: Timestamp, now2: Timestamp, ctx: KeyContext, h: HubKind)
    ensures StagedHubKeys(PreparedRows(raw, now1, ctx), h) == StagedHubKeys(PreparedRows(raw, now2, ctx), h)
  {
    var a := PreparedRows(raw, now1, ctx);
    var b := PreparedRows(raw, now2, ctx);
    PreparedRowsIgnoreLoadTime(raw, now1, now2, ctx);
    forall i | 0 <= i < |a| ensures HubKey(a[i], h) == HubKey(b[i], h) {
      var x := b[i];
      assert a[i] == x.(loadDatetime := now1);
    }
    PointwiseHubKeys(a, b, h);
  }

  /** ... and the same keys of each link. */
  lemma {:induction false} StagedLinkKeysIgnoreLoadTime(raw: seq<RawRow>, now1: Timestamp, now2: Timestamp, ctx: KeyContext, l: LinkKind)
    ensures StagedLinkKeys(PreparedRows(raw, now1, ctx), l) == StagedLinkKeys(PreparedRows(raw, now2, ctx), l)
  {
    var a := PreparedRows(raw, now1, ctx);
    var b := PreparedRows(raw, now2, ctx);
    PreparedRowsIgnoreLoadTime(raw, now1, now2, ctx);
    forall i | 0 <= i < |a| ensures LinkKey(a[i], l) == LinkKey(b[i], l) {
      var x := b[i];
      assert a[i] == x.(loadDatetime := now1);
    }
    PointwiseLinkKeys(a, b, l);
  }
}

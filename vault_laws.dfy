/**
 * What the vault loaders guarantee across statements and runs: the
 * references between links, satellites and hubs, how link keys relate to
 * the hub keys they join, what DISTINCT does and does not collapse within
 * one run, and what a later run can no longer change.
 */
module VaultLaws {
  import opened Tables
  import opened HashKeys
  import opened Entities
  import opened Staging
  import opened Vault

  // --- Referential integrity ----------------------------------------------------

  /**
   * Loading both member hubs and then the link from one staged table keeps
   * every link row's hub keys present in the hubs (flow.py runs each link
   * after its two hubs).
   */
  lemma {:induction false} LinkAfterHubsResolves<P(!new), Q(!new)>(
    hubLeft: seq<HubRow<P>>, leftCandidates: seq<HubRow<P>>,
    hubRight: seq<HubRow<Q>>, rightCandidates: seq<HubRow<Q>>,
    links: seq<LinkRow>, psa: seq<StagedRow>, l: LinkKind)
    requires KeySet(leftCandidates, HubRowKey) == StagedHubKeys(psa, Members(l).0)
    requires KeySet(rightCandidates, HubRowKey) == StagedHubKeys(psa, Members(l).1)
    requires References(links, KeySet(hubLeft, HubRowKey), KeySet(hubRight, HubRowKey))
    ensures References(
      InsertMissing(links, LinkCandidates(psa, l), LinkRowKey),
      KeySet(InsertMissing(hubLeft, leftCandidates, HubRowKey), HubRowKey),
      KeySet(InsertMissing(hubRight, rightCandidates, HubRowKey), HubRowKey))
  {
    var left := KeySet(InsertMissing(hubLeft, leftCandidates, HubRowKey), HubRowKey);
    var right := KeySet(InsertMissing(hubRight, rightCandidates, HubRowKey), HubRowKey);
    InsertMissingKeys(hubLeft, leftCandidates, HubRowKey);
    InsertMissingKeys(hubRight, rightCandidates, HubRowKey);
    ReferencesWiden(links, KeySet(hubLeft, HubRowKey), KeySet(hubRight, HubRowKey), left, right);
    LinkLoadKeepsReferences(links, psa, l, left, right);
  }

  /** The instance for link_customer_country, which joins hub_customer and hub_country. */
  lemma CustomerCountryAfterHubsResolves(
    hubCustomer: seq<HubRow<int>>, hubCountry: seq<HubRow<Option<string>>>, links: seq<LinkRow>, psa: seq<StagedRow>)
    requires References(links, KeySet(hubCustomer, HubRowKey), KeySet(hubCountry, HubRowKey))
    ensures References(
      InsertMissing(links, LinkCandidates(psa, CustomerCountry), LinkRowKey),
      KeySet(InsertMissing(hubCustomer, CustomerHubCandidates(psa), HubRowKey), HubRowKey),
      KeySet(InsertMissing(hubCountry, CountryHubCandidates(psa), HubRowKey), HubRowKey))
  {
    var customers := CustomerHubCandidates(psa);
    var countries := CountryHubCandidates(psa);
    assert Members(CustomerCountry) == (CustomerHub, CountryHub);
    LinkAfterHubsResolves(hubCustomer, customers, hubCountry, countries, links, psa, CustomerCountry);
  }

  /**
   * Loading a hub and then its satellite from one staged table keeps every
   * satellite key present in the hub (flow.py runs each satellite after its
   * hub).
   */
  lemma {:induction false} SatAfterHubResolves<P(!new), Q(!new)>(
    hub: seq<HubRow<P>>, hubCandidates: seq<HubRow<P>>, sat: seq<SatRow<Q>>, satCandidates: seq<SatRow<Q>>)
    requires KeySet(satCandidates, SatRowKey) <= KeySet(hubCandidates, HubRowKey)
    requires KeySet(sat, SatRowKey) <= KeySet(hub, HubRowKey)
    ensures KeySet(InsertMissing(sat, satCandidates, SatRowKey), SatRowKey)
      <= KeySet(InsertMissing(hub, hubCandidates, HubRowKey), HubRowKey)
  {
    InsertMissingKeys(hub, hubCandidates, HubRowKey);
    InsertMissingKeys(sat, satCandidates, SatRowKey);
  }

  /** The instance for sat_invoice over hub_invoice. */
  lemma SatInvoiceAfterHubResolves(hub: seq<HubRow<InvoiceRef>>, sat: seq<SatRow<InvoiceAttrs>>, psa: seq<StagedRow>)
    requires KeySet(sat, SatRowKey) <= KeySet(hub, HubRowKey)
    ensures KeySet(InsertMissing(sat, InvoiceSatCandidates(psa), SatRowKey), SatRowKey)
      <= KeySet(InsertMissing(hub, InvoiceHubCandidates(psa), HubRowKey), HubRowKey)
  {
    SatAfterHubResolves(hub, InvoiceHubCandidates(psa), sat, InvoiceSatCandidates(psa));
  }

  // --- Link keys --------------------------------------------------------------

  /** Every row's key is the digest of its two member keys. */
  ghost predicate Derived(sha: Sha256, links: seq<LinkRow>) {
    forall x :: x in links ==> x.key == LinkKeyOf(sha, x.left, x.right)
  }

  /**
   * The candidates of a link carry the hub keys their link key was derived
   * from in staging: row i of link_customer_country, say, holds row i's
   * customer and country keys and the digest of their texts.
   */
  lemma {:induction false} LinkCandidatesCarryTheirMembers(raw: seq<RawRow>, now: Timestamp, ctx: KeyContext, l: LinkKind)
    ensures forall i :: 0 <= i < |LinkCandidates(PreparedRows(raw, now, ctx), l)| ==>
      var x := LinkCandidates(PreparedRows(raw, now, ctx), l)[i];
      var r := PreparedRows(raw, now, ctx)[i];
      x.left == HubKey(r, Members(l).0) && x.right == HubKey(r, Members(l).1) &&
      x.key == LinkKeyOf(ctx.sha, x.left, x.right)
  {
    var psa := PreparedRows(raw, now, ctx);
    var kept := DropMissing(raw);
    var c := LinkCandidates(psa, l);
    forall i | 0 <= i < |c|
      ensures c[i].left == HubKey(psa[i], Members(l).0) && c[i].right == HubKey(psa[i], Members(l).1)
      ensures c[i].key == LinkKeyOf(ctx.sha, c[i].left, c[i].right)
    {
      assert kept[i] in kept;
      StagedKeys(kept[i], now, ctx);
    }
  }

  /** The candidates of a link over a prepared table all carry derived keys. */
  lemma {:induction false} LinkCandidatesAreDerived(raw: seq<RawRow>, now: Timestamp, ctx: KeyContext, l: LinkKind)
    ensures Derived(ctx.sha, LinkCandidates(PreparedRows(raw, now, ctx), l))
  {
    var c := LinkCandidates(PreparedRows(raw, now, ctx), l);
    LinkCandidatesCarryTheirMembers(raw, now, ctx, l);
    forall x | x in c ensures x.key == LinkKeyOf(ctx.sha, x.left, x.right) {
      var i :| 0 <= i < |c| && c[i] == x;
    }
  }

  /** A link load over a prepared table keeps every link row's key derived from its member keys. */
  lemma {:induction false} LinkLoadKeepsDerivation(links: seq<LinkRow>, raw: seq<RawRow>, now: Timestamp, ctx: KeyContext, l: LinkKind)
    requires Derived(ctx.sha, links)
    ensures Derived(ctx.sha, InsertMissing(links, LinkCandidates(PreparedRows(raw, now, ctx), l), LinkRowKey))
  {
    LinkCandidatesAreDerived(raw, now, ctx, l);
  }

  // --- sat_invoice and credit notes --------------------------------------------

  /**
   * A credit note and the invoice line it cancels, staged in one run, share
   * a hub_invoice key but differ in ReturnStatus, so DISTINCT keeps both and
   * sat_invoice receives two rows under one key.
   */
  lemma {:induction false} CreditNoteAndInvoiceBothReachSatInvoice(
    sat: seq<SatRow<InvoiceAttrs>>, raw: seq<RawRow>, credit: RawRow, invoice: RawRow, number: string, now: Timestamp, ctx: KeyContext)
    requires credit in raw && invoice in raw && HasRequiredFields(credit) && HasRequiredFields(invoice)
    requires credit.invoiceNo == Some("C" + number) && invoice.invoiceNo == Some(number) && !StartsWithCreditMarker(Some(number))
    requires credit.stockCode == invoice.stockCode && credit.invoiceDate == invoice.invoiceDate && invoice.quantity >= 0
    requires StageRow(invoice, now, ctx).hubInvoiceKey !in KeySet(sat, SatRowKey)
    ensures var news := NewRows(sat, InvoiceSatCandidates(PreparedRows(raw, now, ctx)), SatRowKey);
      InvoiceSatRow(StageRow(credit, now, ctx)) in news && InvoiceSatRow(StageRow(invoice, now, ctx)) in news
    ensures InvoiceSatRow(StageRow(credit, now, ctx)).payload.returnStatus == Return
    ensures InvoiceSatRow(StageRow(invoice, now, ctx)).payload.returnStatus == Normal
    ensures !UniqueKeys(InsertMissing(sat, InvoiceSatCandidates(PreparedRows(raw, now, ctx)), SatRowKey), SatRowKey)
  {
    var psa := PreparedRows(raw, now, ctx);
    var c := InvoiceSatCandidates(psa);
    var a := StageRow(credit, now, ctx);
    var b := StageRow(invoice, now, ctx);
    CreditNoteSharesInvoiceKey(credit, invoice, number, now, ctx);
    KeptRowIsStaged(raw, credit, now, ctx);
    KeptRowIsStaged(raw, invoice, now, ctx);
    assert InvoiceSatRow(a) in c && InvoiceSatRow(b) in c;
    assert InvoiceSatRow(a).payload.returnStatus != InvoiceSatRow(b).payload.returnStatus;
    SharedNewKeyInsertsBoth(sat, c, SatRowKey, InvoiceSatRow(a), InvoiceSatRow(b));
  }

  /**
   * A credit note staged in a later run than its invoice never reaches
   * sat_invoice: the invoice's key is already present, and the rows under
   * that key stay exactly the ones loaded before.
   */
  lemma {:induction false} LateCreditNoteNeverReachesSatInvoice(
    sat: seq<SatRow<InvoiceAttrs>>, raw: seq<RawRow>, credit: RawRow, invoice: RawRow, number: string,
    earlier: Timestamp, now: Timestamp, ctx: KeyContext)
    requires HasRequiredFields(credit) && HasRequiredFields(invoice)
    requires credit.invoiceNo == Some("C" + number) && invoice.invoiceNo == Some(number) && !StartsWithCreditMarker(Some(number))
    requires credit.stockCode == invoice.stockCode && credit.invoiceDate == invoice.invoiceDate
    requires InvoiceSatRow(StageRow(invoice, earlier, ctx)) in sat
    ensures InvoiceSatRow(StageRow(credit, now, ctx)) !in NewRows(sat, InvoiceSatCandidates(PreparedRows(raw, now, ctx)), SatRowKey)
    ensures forall x ::
      (x in InsertMissing(sat, InvoiceSatCandidates(PreparedRows(raw, now, ctx)), SatRowKey) &&
       x.key == StageRow(credit, now, ctx).hubInvoiceKey) ==> x in sat
  {
    var c := InvoiceSatCandidates(PreparedRows(raw, now, ctx));
    var k := StageRow(credit, now, ctx).hubInvoiceKey;
    CreditNoteSharesInvoiceKey(credit, invoice, number, now, ctx);
    KeysIgnoreLoadTime(invoice, now, earlier, ctx);
    assert HubKey(StageRow(invoice, now, ctx), InvoiceHub) == HubKey(StageRow(invoice, earlier, ctx), InvoiceHub);
    assert SatRowKey(InvoiceSatRow(StageRow(invoice, earlier, ctx))) == k;
    assert k in KeySet(sat, SatRowKey);
    PresentKeyIsNeverReinserted(sat, c, SatRowKey, InvoiceSatRow(StageRow(credit, now, ctx)));
    PresentKeyRowsAreOld(sat, c, SatRowKey, k);
  }

  // --- Unique hub and satellite keys ------------------------------------------

  /** A staged row's product key is the truncated digest of its StockCode alone. */
  lemma StagedProductKey(x: RawRow, now: Timestamp, ctx: KeyContext)
    requires HasRequiredFields(x)
    ensures StageRow(x, now, ctx).hubProductKey == ctx.sha(StageRow(x, now, ctx).stockCode)[..16]
  {
    CompositeOfOne(x.stockCode.value);
  }

  /** A staged row's time key is the truncated digest of its InvoiceDate's text alone. */
  lemma StagedTimeKey(x: RawRow, now: Timestamp, ctx: KeyContext)
    requires HasRequiredFields(x)
    ensures StageRow(x, now, ctx).hubTimeKey == ctx.sha(ctx.timestampText(StageRow(x, now, ctx).invoiceDate))[..16]
  {
    CompositeOfOne(ctx.timestampText(x.invoiceDate.value));
  }

  lemma {:induction false} ProductKeyHashesStockCode(raw: seq<RawRow>, now: Timestamp, ctx: KeyContext)
    ensures forall r :: r in PreparedRows(raw, now, ctx) ==> r.hubProductKey == ctx.sha(r.stockCode)[..16]
  {
    var psa := PreparedRows(raw, now, ctx);
    var kept := DropMissing(raw);
    forall r | r in psa ensures r.hubProductKey == ctx.sha(r.stockCode)[..16] {
      var i :| 0 <= i < |psa| && psa[i] == r;
      assert kept[i] in kept;
      StagedProductKey(kept[i], now, ctx);
    }
  }

  lemma {:induction false} TimeKeyHashesInvoiceDate(raw: seq<RawRow>, now: Timestamp, ctx: KeyContext)
    ensures forall r :: r in PreparedRows(raw, now, ctx) ==> r.hubTimeKey == ctx.sha(ctx.timestampText(r.invoiceDate))[..16]
  {
    var psa := PreparedRows(raw, now, ctx);
    var kept := DropMissing(raw);
    forall r | r in psa ensures r.hubTimeKey == ctx.sha(ctx.timestampText(r.invoiceDate))[..16] {
      var i :| 0 <= i < |psa| && psa[i] == r;
      assert kept[i] in kept;
      StagedTimeKey(kept[i], now, ctx);
    }
  }

  /** Staged rows of one run share a load time and a source. */
  ghost predicate OneRun(psa: seq<StagedRow>) {
    forall i, j :: 0 <= i < |psa| && 0 <= j < |psa| ==>
      psa[i].loadDatetime == psa[j].loadDatetime && psa[i].recordSource == psa[j].recordSource
  }

  lemma PreparedRowsAreOneRun(raw: seq<RawRow>, now: Timestamp, ctx: KeyContext)
    ensures OneRun(PreparedRows(raw, now, ctx))
  {
  }

  /** A product key names one StockCode when the digest tells the staged StockCodes apart. */
  lemma {:induction false} ProductKeyIdentifiesStockCode(psa: seq<StagedRow>, sha: Sha256)
    requires forall r :: r in psa ==> r.hubProductKey == sha(r.stockCode)[..16]
    requires forall r1, r2 :: r1 in psa && r2 in psa ==> Distinguishes(sha, r1.stockCode, r2.stockCode)
    ensures forall i, j :: 0 <= i < |psa| && 0 <= j < |psa| && psa[i].hubProductKey == psa[j].hubProductKey ==>
      psa[i].stockCode == psa[j].stockCode
  {
    forall i, j | 0 <= i < |psa| && 0 <= j < |psa| && psa[i].hubProductKey == psa[j].hubProductKey
      ensures psa[i].stockCode == psa[j].stockCode
    {
      assert psa[i] in psa && psa[j] in psa;
      assert Distinguishes(sha, psa[i].stockCode, psa[j].stockCode);
    }
  }

  /** Within one run, a product key that names one StockCode names one candidate row. */
  lemma {:induction false} ProductCandidatesKeyDeterminesRow(psa: seq<StagedRow>)
    requires OneRun(psa)
    requires forall i, j :: 0 <= i < |psa| && 0 <= j < |psa| && psa[i].hubProductKey == psa[j].hubProductKey ==>
      psa[i].stockCode == psa[j].stockCode
    ensures KeyDeterminesRow(ProductHubCandidates(psa), HubRowKey)
  {
    var c := ProductHubCandidates(psa);
    assert forall i, j :: 0 <= i < |c| && 0 <= j < |c| && HubRowKey(c[i]) == HubRowKey(c[j]) ==> c[i] == c[j];
    KeyDeterminesRowByIndex(c, HubRowKey);
  }

  /**
   * hub_product keeps one row per key: the rows a run offers carry one load
   * time and one source, so two of them with one key have one StockCode
   * whenever the digest tells the staged StockCodes apart.
   */
  lemma {:induction false} ProductHubKeepsKeysUnique(hub: seq<HubRow<string>>, raw: seq<RawRow>, now: Timestamp, ctx: KeyContext)
    requires UniqueKeys(hub, HubRowKey)
    requires forall r1, r2 :: r1 in PreparedRows(raw, now, ctx) && r2 in PreparedRows(raw, now, ctx) ==>
      Distinguishes(ctx.sha, r1.stockCode, r2.stockCode)
    ensures UniqueKeys(InsertMissing(hub, ProductHubCandidates(PreparedRows(raw, now, ctx)), HubRowKey), HubRowKey)
  {
    var psa := PreparedRows(raw, now, ctx);
    PreparedRowsAreOneRun(raw, now, ctx);
    ProductKeyHashesStockCode(raw, now, ctx);
    ProductKeyIdentifiesStockCode(psa, ctx.sha);
    ProductCandidatesKeyDeterminesRow(psa);
    InsertMissingKeepsKeysUnique(hub, ProductHubCandidates(psa), HubRowKey);
  }

  /** A time key names one InvoiceDate when distinct dates render apart and the digest tells the texts apart. */
  lemma {:induction false} TimeKeyIdentifiesInvoiceDate(psa: seq<StagedRow>, ctx: KeyContext)
    requires forall r :: r in psa ==> r.hubTimeKey == ctx.sha(ctx.timestampText(r.invoiceDate))[..16]
    requires forall r1, r2 :: r1 in psa && r2 in psa ==>
      Distinguishes(ctx.sha, ctx.timestampText(r1.invoiceDate), ctx.timestampText(r2.invoiceDate)) &&
      (r1.invoiceDate != r2.invoiceDate ==> ctx.timestampText(r1.invoiceDate) != ctx.timestampText(r2.invoiceDate))
    ensures forall i, j :: 0 <= i < |psa| && 0 <= j < |psa| && psa[i].hubTimeKey == psa[j].hubTimeKey ==>
      psa[i].invoiceDate == psa[j].invoiceDate
  {
    forall i, j | 0 <= i < |psa| && 0 <= j < |psa| && psa[i].hubTimeKey == psa[j].hubTimeKey
      ensures psa[i].invoiceDate == psa[j].invoiceDate
    {
      assert psa[i] in psa && psa[j] in psa;
      assert Distinguishes(ctx.sha, ctx.timestampText(psa[i].invoiceDate), ctx.timestampText(psa[j].invoiceDate));
    }
  }

  /** Within one run, a time key that names one InvoiceDate names one sat_time candidate. */
  lemma {:induction false} TimeSatCandidatesKeyDeterminesRow(psa: seq<StagedRow>, cal: Calendar)
    requires OneRun(psa)
    requires forall i, j :: 0 <= i < |psa| && 0 <= j < |psa| && psa[i].hubTimeKey == psa[j].hubTimeKey ==>
      psa[i].invoiceDate == psa[j].invoiceDate
    ensures KeyDeterminesRow(TimeSatCandidates(cal, psa), SatRowKey)
  {
    var c := TimeSatCandidates(cal, psa);
    assert forall i, j :: 0 <= i < |c| && 0 <= j < |c| && SatRowKey(c[i]) == SatRowKey(c[j]) ==> c[i] == c[j];
    KeyDeterminesRowByIndex(c, SatRowKey);
  }

  /**
   * sat_time keeps one row per key: its attributes are computed from
   * InvoiceDate alone, so two candidates with one key agree on them whenever
   * the key identifies the date (distinct dates render and hash apart).
   */
  lemma {:induction false} SatTimeOneRowPerKey(sat: seq<SatRow<TimeAttrs>>, cal: Calendar, raw: seq<RawRow>, now: Timestamp, ctx: KeyContext)
    requires UniqueKeys(sat, SatRowKey)
    requires forall r1, r2 :: r1 in PreparedRows(raw, now, ctx) && r2 in PreparedRows(raw, now, ctx) ==>
      Distinguishes(ctx.sha, ctx.timestampText(r1.invoiceDate), ctx.timestampText(r2.invoiceDate)) &&
      (r1.invoiceDate != r2.invoiceDate ==> ctx.timestampText(r1.invoiceDate) != ctx.timestampText(r2.invoiceDate))
    ensures UniqueKeys(InsertMissing(sat, TimeSatCandidates(cal, PreparedRows(raw, now, ctx)), SatRowKey), SatRowKey)
  {
    var psa := PreparedRows(raw, now, ctx);
    PreparedRowsAreOneRun(raw, now, ctx);
    TimeKeyHashesInvoiceDate(raw, now, ctx);
    TimeKeyIdentifiesInvoiceDate(psa, ctx);
    TimeSatCandidatesKeyDeterminesRow(psa, cal);
    InsertMissingKeepsKeysUnique(sat, TimeSatCandidates(cal, psa), SatRowKey);
  }

  // --- The hub_invoice key has no separator ------------------------------------

  /**
   * Two lines whose InvoiceNo and StockCode split one string at different
   * points, on one date, stage to one hub_invoice key although their
   * hub_invoice rows differ.
   */
  lemma {:induction false} BoundaryShiftSharesInvoiceKey(
    a: RawRow, b: RawRow, p: string, q: string, stock: string, date: Timestamp, now: Timestamp, ctx: KeyContext)
    requires a.invoiceNo == Some(p + q) && a.stockCode == Some(stock) && a.invoiceDate == Some(date)
    requires b.invoiceNo == Some(p) && b.stockCode == Some(q + stock) && b.invoiceDate == Some(date)
    requires 'C' !in p && 'C' !in q && q != ""
    ensures StageRow(a, now, ctx).hubInvoiceKey == StageRow(b, now, ctx).hubInvoiceKey
    ensures InvoiceHubRow(StageRow(a, now, ctx)) != InvoiceHubRow(StageRow(b, now, ctx))
  {
    BoundaryShiftSharesInvoiceCells(a, b, p, q, stock, date, ctx);
    StagedKeys(a, now, ctx);
    StagedKeys(b, now, ctx);
    assert 'C' !in p + q;
    assert StageRow(a, now, ctx).invoiceNo == Some(p + q) && StageRow(b, now, ctx).invoiceNo == Some(p);
    assert |p + q| != |p|;
  }

  lemma {:induction false} BoundaryShiftSharesInvoiceCells(
    a: RawRow, b: RawRow, p: string, q: string, stock: string, date: Timestamp, ctx: KeyContext)
    requires a.invoiceNo == Some(p + q) && a.stockCode == Some(stock) && a.invoiceDate == Some(date)
    requires b.invoiceNo == Some(p) && b.stockCode == Some(q + stock) && b.invoiceDate == Some(date)
    requires 'C' !in p && 'C' !in q
    ensures HashKey(ctx.sha, HubCells(ctx, a, InvoiceHub)) == HashKey(ctx.sha, HubCells(ctx, b, InvoiceHub))
  {
    assert 'C' !in p + q;
    var ts := ctx.timestampText(date);
    assert HubCells(ctx, a, InvoiceHub) == [p + q, stock] + [ts];
    assert HubCells(ctx, b, InvoiceHub) == [p, q + stock] + [ts];
    BoundaryShiftCollidesBefore(ctx.sha, p, q, stock, [ts]);
  }

  /** Loaded from one extract, two such lines both enter hub_invoice under one key. */
  lemma {:induction false} InvoiceHubBoundaryCollision(
    hub: seq<HubRow<InvoiceRef>>, raw: seq<RawRow>, a: RawRow, b: RawRow,
    p: string, q: string, stock: string, date: Timestamp, now: Timestamp, ctx: KeyContext)
    requires a in raw && b in raw
    requires a.invoiceNo == Some(p + q) && a.stockCode == Some(stock) && a.invoiceDate == Some(date)
    requires b.invoiceNo == Some(p) && b.stockCode == Some(q + stock) && b.invoiceDate == Some(date)
    requires 'C' !in p && 'C' !in q && q != ""
    requires StageRow(a, now, ctx).hubInvoiceKey !in KeySet(hub, HubRowKey)
    ensures var news := NewRows(hub, InvoiceHubCandidates(PreparedRows(raw, now, ctx)), HubRowKey);
      InvoiceHubRow(StageRow(a, now, ctx)) in news && InvoiceHubRow(StageRow(b, now, ctx)) in news
    ensures !UniqueKeys(InsertMissing(hub, InvoiceHubCandidates(PreparedRows(raw, now, ctx)), HubRowKey), HubRowKey)
  {
    var x := InvoiceHubRow(StageRow(a, now, ctx));
    var y := InvoiceHubRow(StageRow(b, now, ctx));
    BoundaryShiftSharesInvoiceKey(a, b, p, q, stock, date, now, ctx);
    var c := InvoiceHubCandidates(PreparedRows(raw, now, ctx));
    KeptRowIsStaged(raw, a, now, ctx);
    KeptRowIsStaged(raw, b, now, ctx);
    assert x in c && y in c;
    SharedNewKeyInsertsBoth(hub, c, HubRowKey, x, y);
  }

  // --- Re-running the load -----------------------------------------------------

  /** The same extract staged again at a later load time adds no hub_invoice row. */
  lemma {:induction false} RestagedExtractAddsNoHubInvoiceRows(
    hub: seq<HubRow<InvoiceRef>>, raw: seq<RawRow>, now1: Timestamp, now2: Timestamp, ctx: KeyContext)
    ensures NewRows(
      InsertMissing(hub, InvoiceHubCandidates(PreparedRows(raw, now1, ctx)), HubRowKey),
      InvoiceHubCandidates(PreparedRows(raw, now2, ctx)), HubRowKey) == []
  {
    StagedHubKeysIgnoreLoadTime(raw, now1, now2, ctx, InvoiceHub);
    RerunWithKnownKeysAddsNothing(hub, InvoiceHubCandidates(PreparedRows(raw, now1, ctx)),
      InvoiceHubCandidates(PreparedRows(raw, now2, ctx)), HubRowKey);
  }

  /** The same extract staged again at a later load time adds no row to any link. */
  lemma {:induction false} RestagedExtractAddsNoLinkRows(
    links: seq<LinkRow>, raw: seq<RawRow>, now1: Timestamp, now2: Timestamp, ctx: KeyContext, l: LinkKind)
    ensures NewRows(
      InsertMissing(links, LinkCandidates(PreparedRows(raw, now1, ctx), l), LinkRowKey),
      LinkCandidates(PreparedRows(raw, now2, ctx), l), LinkRowKey) == []
  {
    StagedLinkKeysIgnoreLoadTime(raw, now1, now2, ctx, l);
    RerunWithKnownKeysAddsNothing(links, LinkCandidates(PreparedRows(raw, now1, ctx), l),
      LinkCandidates(PreparedRows(raw, now2, ctx), l), LinkRowKey);
  }

  /**
   * The same extract staged again at a later load time adds no sat_invoice
   * row: the satellite keeps the first load's attributes and EFFECTIVE_FROM.
   */
  lemma {:induction false} RestagedExtractAddsNoSatInvoiceRows(
    sat: seq<SatRow<InvoiceAttrs>>, raw: seq<RawRow>, now1: Timestamp, now2: Timestamp, ctx: KeyContext)
    ensures NewRows(
      InsertMissing(sat, InvoiceSatCandidates(PreparedRows(raw, now1, ctx)), SatRowKey),
      InvoiceSatCandidates(PreparedRows(raw, now2, ctx)), SatRowKey) == []
  {
    StagedHubKeysIgnoreLoadTime(raw, now1, now2, ctx, InvoiceHub);
    RerunWithKnownKeysAddsNothing(sat, InvoiceSatCandidates(PreparedRows(raw, now1, ctx)),
      InvoiceSatCandidates(PreparedRows(raw, now2, ctx)), SatRowKey);
  }
}

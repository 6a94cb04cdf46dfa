# Online Retail Data Vault pipeline, modelled in Dafny

The pipeline is an ELT flow over the UCI Online Retail II extract. It has four stages:

1. **Staging (PSA).** `prepare_psa_online_retails` cleans the raw table:
   - it drops rows that lack StockCode or InvoiceDate;
   - it sets a missing CustomerID to 0, the unknown customer;
   - it classifies every line as Normal or Return;
   - it removes every `C` from InvoiceNo;
   - it attaches five hub keys and five link keys, each derived by `generate_hash_key`.

   The result replaces `raw.psa_online_retails`.
2. **Vault.** Insert-only statements load the five hubs, the five links and the three satellites. Each statement inserts the distinct staged rows whose key the table does not yet hold.
3. **Marts.** The fact and dimension tables are truncated and rebuilt from the vault. Each is one join.
4. **Quality.** The marker table `anomaly_customer_invoioces` is truncated and rebuilt from the vault. It keeps the sales of the unknown customer.

`online_retail_elt_flow` is a fixed graph. Each task waits for the tasks listed in its `wait_for`.

The model has nine modules, one per file:

| file | module | what it holds |
|---|---|---|
| `hashx.dfy` | `HashKeys` | Key derivation. The composite string, the truncated digest, and the UUID text of a key. |
| `entities.dfy` | `Entities` | The hubs, links and satellites, and the opaque column types. |
| `tables.dfy` | `Tables` | The relational operations: filter, SELECT DISTINCT, projection, join, and the anti-join insert `InsertMissing`, with its laws. |
| `staging.dfy` | `Staging` | One staged row per kept raw row. The class `PsaTable` models the staging table; its method is the staging task. |
| `vault.dfy` | `Vault` | The loaders' SELECT lists. The class `VaultTables` holds the thirteen vault tables and has one method per loader. |
| `vault_laws.dfy` | `VaultLaws` | What the loaders guarantee across statements and runs. |
| `marts.dfy` | `Marts` | The fact and dimension SELECTs as functions. The class `MartTables` has one truncate-and-insert method per builder. |
| `quality.dfy` | `Quality` | The marker's SELECT. The class `QualityTables` holds the marker table and its task. |
| `flow.dfy` | `Flow` | The task graph: declaration lines, `wait_for` lists, the upstream closure, and which tables each task reads. |

How the model stands for the system:

- **SHA-256.** The digest is a parameter `sha: string -> Digest`. Every key lemma holds for any digest. Collision resistance is an explicit premise (`HashKeys.Distinguishes`) wherever a lemma needs it.
- **Tables.** A table is a sequence of rows. Its order carries no meaning; a row's multiplicity does, because joins repeat rows.
- **Tasks.** A state-changing task is a method on the class that holds its schema. Its `ensures` gives the whole new value of the table it writes, as a function of the old state. The laws are proved about those functions.

### What the proofs show about the code

These follow from the code as written. They are proved behaviours, not corrections.

- **Boundary shifts collide.** `generate_hash_key` joins the cells with no separator, so moving characters across a column boundary keeps the key. (`HashKeys.BoundaryShiftCollides`, `HashKeys.SeparatorCollision`) So distinct column tuples can share a key. For hub_invoice, InvoiceNo `p+q` with StockCode `s` and InvoiceNo `p` with StockCode `q+s` on one date share a key, and both rows enter the hub. (`VaultLaws.InvoiceHubBoundaryCollision`) Link composites avoid this: each member key's text is exactly 36 characters. (`HashKeys.KeyPairCompositeUnambiguous`)
- **A credit note shares its invoice's key.** Stripping happens before hashing, so a credit note `C…` and its invoice share a hub_invoice key. The two are merged into one hub_invoice row.
  - If both are staged in one run, DISTINCT keeps both satellite rows. sat_invoice then holds two rows under one key: one Normal, one Return.
  - If the credit note arrives in a later run, it never reaches sat_invoice.
- **Left joins multiply rows.** The fact tables have exactly one row per matched hub/satellite pair only when each invoice has at most one row in each of the four invoice links. In general a pair yields the product of max(1, matching link rows). (`Marts.FactRowCount`)
- **The marker includes credit notes.** It reads sat_invoice without a ReturnStatus filter. Its inner joins drop any sale that lacks one of the four links.
- **Some dimensions do not wait on their hub.** Dim_Product, Dim_Customer, Dim_Time and Dim_Country never list the hub they read in `wait_for`. They are still ordered after it, through a satellite, a link or fact_sales.
- **The validated frame is discarded.** Staging validates the frame but inserts the unvalidated `df_psa`. The model inserts the prepared rows as they are; validation only decides whether the insert happens.

## Model

| member | source | states |
|---|---|---|
| HashKeys.CompositeOfOne | utilx/hashx.py:9 | The composite of a single column is that cell's text. |
| HashKeys.CompositeAppend | utilx/hashx.py:9 | Splitting the column list splits the composite: the composite of `a + b` is the composite of `a` followed by the composite of `b`. |
| HashKeys.CompositeLength | utilx/hashx.py:9 | The composite is as long as all the cells together, so no separator character is added. |
| HashKeys.EqualCompositesGiveEqualKeys | utilx/hashx.py:11-13 | Determinism: two column tuples with one composite get one key, whatever the digest. |
| HashKeys.BoundaryShiftCollides | utilx/hashx.py:9-13 | Moving characters from one cell into the next, as in `[x+y, z]` versus `[x, y+z]`, leaves both the composite and the key unchanged. |
| HashKeys.BoundaryShiftCollidesBefore | utilx/hashx.py:9-13 | The boundary shift also collides when more columns follow the two cells. |
| HashKeys.SeparatorCollision | utilx/hashx.py:9-13 | `["ab","c"]` and `["a","bc"]` are different tuples with the same key. |
| HashKeys.SwappedColumnsChangeKey | utilx/hashx.py:9-13 | Swapping two columns turns the composite `x+y` into `y+x`. The key changes whenever those two strings differ and the digest tells them apart. |
| HashKeys.GenerateHashKey | utilx/hashx.py:6-15 | One key per input row. Any two rows that agree on every listed column get the same key. Row i's key is the first 16 bytes of the digest of the composite of row i's listed columns. |
| HashKeys.KeyDependsOnlyOnListedColumns | utilx/hashx.py:9-15 | A row's key depends only on its listed columns. Two rows that agree on them get one key, whatever their positions and the other rows. |
| HashKeys.UnhexHex | utilx/hashx.py:13 | Reading back the lower-case hex text of a byte string gives the bytes back. |
| HashKeys.UuidTextRoundTrip | utilx/hashx.py:13 | Parsing the 8-4-4-4-12 text of a UUID gives back its 16 bytes. |
| HashKeys.UuidTextInjective | utilx/hashx.py:13 | Distinct keys have distinct texts. |
| HashKeys.KeyPairCompositeUnambiguous | online_retails/tasks/raw/extract_online_retails.py:133-137 | The separator-free composite of two key texts determines both keys. A link composite therefore never collides by a boundary shift. |
| Tables.NewRows | online_retails/tasks/vault/load_hubs.py:13-16 | The inserted rows are exactly the candidates whose key is absent from the table before the statement, each taken once. |
| Tables.InsertMissing | online_retails/tasks/vault/load_hubs.py:13-17 | Append-only: the old table is an unchanged prefix of the new one. |
| Tables.InsertMissingKeys | online_retails/tasks/vault/load_hubs.py:13-16 | After the load, the table's keys are exactly its old keys plus every candidate key. No candidate key is missed. |
| Tables.CoveredInsertsNothing | online_retails/tasks/vault/load_hubs.py:16 | When the table already holds every candidate key, nothing is inserted. |
| Tables.InsertMissingIdempotent | online_retails/tasks/vault/load_hubs.py:16 | Re-running a load on the same candidates inserts nothing and leaves the table as it is. |
| Tables.RerunWithKnownKeysAddsNothing | online_retails/tasks/vault/load_hubs.py:16 | A later load whose candidate keys were all loaded before inserts nothing. |
| Tables.InsertMissingKeepsKeysUnique | online_retails/tasks/vault/load_hubs.py:14-16 | A table with unique keys keeps them unique when, among the candidates, the key determines the whole row. |
| Tables.SharedNewKeyInsertsBoth | online_retails/tasks/vault/load_sats.py:12-14 | Two different candidates that share a new key are both inserted: DISTINCT compares whole rows. The table then has a repeated key. |
| Tables.PresentKeyIsNeverReinserted | online_retails/tasks/vault/load_sats.py:14 | A candidate whose key the table already holds is never inserted, whatever its payload. |
| Tables.PresentKeyRowsAreOld | online_retails/tasks/vault/load_sats.py:14 | The rows under a key that was already present are exactly the old rows. A new payload is dropped, not versioned. |
| Staging.DropMissing | online_retails/tasks/raw/extract_online_retails.py:115 | A row is kept, with its multiplicity, exactly when StockCode and InvoiceDate are both present. Every other row is dropped. |
| Staging.RemoveC | online_retails/tasks/raw/extract_online_retails.py:122 | The result has no `C` anywhere, holds exactly the other characters of the input, and a string without `C` is unchanged. |
| Staging.RemoveCCounts | online_retails/tasks/raw/extract_online_retails.py:122 | Every character other than `C` occurs in the result exactly as often as in the input. |
| Staging.RemoveCOne | online_retails/tasks/raw/extract_online_retails.py:122 | A single `C` becomes empty, and any other single character stays. |
| Staging.RemoveCAppend | online_retails/tasks/raw/extract_online_retails.py:122 | Removal distributes over concatenation. With `RemoveCOne`, this fixes the result for every string, order included. |
| Staging.RemoveLeadingC | online_retails/tasks/raw/extract_online_retails.py:122 | A leading credit marker is removed like any other `C`. |
| Staging.HubCellsAreListedColumns | online_retails/tasks/raw/extract_online_retails.py:128-132 | The cells a hub key hashes are that hub's listed columns of the cleaned and stripped row. |
| Staging.StageRow | online_retails/tasks/raw/extract_online_retails.py:117-137 | ReturnStatus is Return iff the raw InvoiceNo starts with `C` (a null one does not) or Quantity < 0. The staged InvoiceNo is the stripped one and is null iff the raw one is. A missing CustomerID becomes 0 and a present one is kept. The other columns are copied, and LOAD_DATETIME and RECORD_SOURCE are stamped. |
| Staging.StagedKeys | online_retails/tasks/raw/extract_online_retails.py:128-137 | Each hub key hashes its hub's cells. Each link key hashes the texts of its two member hub keys, in member order. |
| Staging.PreparedRows | online_retails/tasks/raw/extract_online_retails.py:115-146 | One staged row per kept raw row, in order. Every row carries this run's LOAD_DATETIME and the RECORD_SOURCE `UCI Online Retail II`. |
| Staging.PsaTable.PreparePsaOnlineRetails | online_retails/tasks/raw/extract_online_retails.py:76-153 | When validation accepts every prepared row, the table holds exactly the prepared rows and nothing from earlier runs. Otherwise the task stops before the truncate and the table is unchanged. |
| Staging.MissingCustomerIsUnknown | online_retails/tasks/raw/extract_online_retails.py:117-130 | A missing CustomerID is staged as 0 and hashed as the text of 0. |
| Staging.CreditNoteSharesInvoiceKey | online_retails/tasks/raw/extract_online_retails.py:121-128 | Take any invoice number n that does not start with `C`. A credit note `C`+n and the invoice n with one stock code and date share the stripped InvoiceNo and the hub_invoice key. Only the credit note is forced to Return. |
| Staging.CreditNoteExample | online_retails/tasks/raw/extract_online_retails.py:121-122 | `C536379` with a negative quantity is a Return staged as `536379`. |
| Staging.StagingIgnoresLoadTime | online_retails/tasks/raw/extract_online_retails.py:125-137 | Staging one row at two load times gives rows that differ only in LOAD_DATETIME. |
| Staging.KeysIgnoreLoadTime | online_retails/tasks/raw/extract_online_retails.py:128-137 | All ten keys of a row are independent of the load time. |
| Staging.PreparedRowsIgnoreLoadTime | online_retails/tasks/raw/extract_online_retails.py:115-146 | Staging one extract at two load times gives rows that agree position by position, except for LOAD_DATETIME. |
| Staging.PreparedHubKeysAreGenerated | online_retails/tasks/raw/extract_online_retails.py:128-132 | Each hub key column of the prepared table equals `generate_hash_key` of the cleaned table over that hub's columns. |
| Staging.KeptRowIsStaged | online_retails/tasks/raw/extract_online_retails.py:115-146 | Every raw row that the cleaning keeps reaches the prepared table. |
| Staging.StagedHubKeysIgnoreLoadTime | online_retails/tasks/raw/extract_online_retails.py:128-132 | The set of a hub's keys in staging does not depend on the load time. |
| Staging.StagedLinkKeysIgnoreLoadTime | online_retails/tasks/raw/extract_online_retails.py:133-137 | The set of a link's keys in staging does not depend on the load time. |
| Vault.InvoiceHubCandidates | online_retails/tasks/vault/load_hubs.py:14-15 | hub_invoice is offered exactly the invoice keys the staging table carries. |
| Vault.ProductHubCandidates | online_retails/tasks/vault/load_hubs.py:31-32 | hub_product is offered exactly the product keys the staging table carries. |
| Vault.CustomerHubCandidates | online_retails/tasks/vault/load_hubs.py:47-48 | hub_customer is offered exactly the customer keys the staging table carries. |
| Vault.TimeHubCandidates | online_retails/tasks/vault/load_hubs.py:62-63 | hub_time is offered exactly the time keys the staging table carries. |
| Vault.CountryHubCandidates | online_retails/tasks/vault/load_hubs.py:77-78 | hub_country is offered exactly the country keys the staging table carries. |
| Vault.LinkCandidates | online_retails/tasks/vault/load_links.py:12-13 | A link is offered exactly the staged link keys, one candidate per staged row, carrying that row's two member hub keys. |
| Vault.InvoiceSatCandidates | online_retails/tasks/vault/load_sats.py:12-14 | sat_invoice is offered exactly the staged invoice keys. EFFECTIVE_FROM equals LOAD_DATETIME on every candidate. |
| Vault.ProductSatCandidates | online_retails/tasks/vault/load_sats.py:26-28 | sat_product is offered exactly the staged product keys. EFFECTIVE_FROM equals LOAD_DATETIME. |
| Vault.TimeSatCandidates | online_retails/tasks/vault/load_sats.py:40-50 | sat_time is offered exactly the staged time keys. EFFECTIVE_FROM equals LOAD_DATETIME. |
| Vault.LinkLoadKeepsReferences | online_retails/tasks/vault/load_links.py:11-14 | When both member hubs hold every staged key, a link load keeps every link row's hub keys resolvable. |
| Vault.LinkCandidateReferencesStagedKeys | online_retails/tasks/vault/load_links.py:12-13 | A link candidate's member keys are staged keys of the link's two hubs. |
| Vault.VaultTables.HubInvoice | online_retails/tasks/vault/load_hubs.py:4-19 | hub_invoice becomes the anti-join insert of the current staging rows' (key, InvoiceNo, InvoiceDate, LOAD_DATETIME, RECORD_SOURCE). No other table changes. |
| Vault.VaultTables.HubProduct | online_retails/tasks/vault/load_hubs.py:21-36 | hub_product becomes the anti-join insert of the staged (key, StockCode, …) rows. No other table changes. |
| Vault.VaultTables.HubCustomer | online_retails/tasks/vault/load_hubs.py:38-51 | hub_customer becomes the anti-join insert of the staged (key, CustomerID, …) rows. No other table changes. |
| Vault.VaultTables.HubTime | online_retails/tasks/vault/load_hubs.py:53-66 | hub_time becomes the anti-join insert of the staged (key, InvoiceDate, …) rows. No other table changes. |
| Vault.VaultTables.HubCountry | online_retails/tasks/vault/load_hubs.py:68-81 | hub_country becomes the anti-join insert of the staged (key, Country, …) rows. No other table changes. |
| Vault.VaultTables.LinkInvoiceProduct | online_retails/tasks/vault/load_links.py:4-16 | link_invoice_product becomes the anti-join insert, on the link key, of the staged (link key, invoice key, product key, …) rows. |
| Vault.VaultTables.LinkInvoiceCustomer | online_retails/tasks/vault/load_links.py:18-30 | The same, for link_invoice_customer over (invoice key, customer key). |
| Vault.VaultTables.LinkInvoiceTime | online_retails/tasks/vault/load_links.py:32-44 | The same, for link_invoice_time over (invoice key, time key). |
| Vault.VaultTables.LinkInvoiceCountry | online_retails/tasks/vault/load_links.py:46-58 | The same, for link_invoice_country over (invoice key, country key). |
| Vault.VaultTables.LinkCustomerCountry | online_retails/tasks/vault/load_links.py:60-72 | The same, for link_customer_country over (customer key, country key). The invoice key is not involved. |
| Vault.VaultTables.SatInvoice | online_retails/tasks/vault/load_sats.py:4-16 | sat_invoice becomes the anti-join insert, on the hub_invoice key, of the staged measures and ReturnStatus, with EFFECTIVE_FROM = LOAD_DATETIME. |
| Vault.VaultTables.SatProduct | online_retails/tasks/vault/load_sats.py:18-30 | sat_product becomes the anti-join insert, on the hub_product key, of the staged Description. |
| Vault.VaultTables.SatTime | online_retails/tasks/vault/load_sats.py:32-52 | sat_time becomes the anti-join insert, on the hub_time key, of the calendar attributes of InvoiceDate. |
| VaultLaws.LinkAfterHubsResolves | online_retails/tasks/vault/load_links.py:11-14 | Loading the two member hubs and then the link from one staging table keeps every link row's hub keys present in the hubs. |
| VaultLaws.CustomerCountryAfterHubsResolves | online_retails/tasks/vault/load_links.py:60-72 | The instance for link_customer_country, whose members are hub_customer and hub_country. |
| VaultLaws.SatAfterHubResolves | online_retails/tasks/vault/load_sats.py:11-14 | Loading a hub and then its satellite keeps every satellite key present in the hub. |
| VaultLaws.SatInvoiceAfterHubResolves | online_retails/tasks/vault/load_sats.py:4-16 | The instance for sat_invoice over hub_invoice. |
| VaultLaws.LinkCandidatesCarryTheirMembers | online_retails/tasks/vault/load_links.py:12 | Candidate i of a link carries staged row i's two member hub keys, and its key is the digest of their texts. |
| VaultLaws.LinkCandidatesAreDerived | online_retails/tasks/vault/load_links.py:12 | Every link candidate's key is derived from the member keys it carries. |
| VaultLaws.LinkLoadKeepsDerivation | online_retails/tasks/vault/load_links.py:11-14 | A link load keeps every link row's key derived from its member keys. |
| VaultLaws.CreditNoteAndInvoiceBothReachSatInvoice | online_retails/tasks/vault/load_sats.py:12-14 | A credit note and its invoice staged in one run both enter sat_invoice, one as Return and one as Normal, under one key. |
| VaultLaws.LateCreditNoteNeverReachesSatInvoice | online_retails/tasks/vault/load_sats.py:14 | A credit note staged after its invoice was loaded is never inserted. The rows under that key stay the old ones. |
| VaultLaws.StagedProductKey | online_retails/tasks/raw/extract_online_retails.py:129 | A staged product key is the truncated digest of StockCode alone. |
| VaultLaws.StagedTimeKey | online_retails/tasks/raw/extract_online_retails.py:131 | A staged time key is the truncated digest of InvoiceDate's text alone. |
| VaultLaws.ProductKeyHashesStockCode | online_retails/tasks/raw/extract_online_retails.py:129 | Every prepared row's product key is the truncated digest of its StockCode. |
| VaultLaws.TimeKeyHashesInvoiceDate | online_retails/tasks/raw/extract_online_retails.py:131 | Every prepared row's time key is the truncated digest of its InvoiceDate text. |
| VaultLaws.PreparedRowsAreOneRun | online_retails/tasks/raw/extract_online_retails.py:125-127 | All rows of one staging run carry one LOAD_DATETIME and one RECORD_SOURCE. |
| VaultLaws.ProductKeyIdentifiesStockCode | online_retails/tasks/raw/extract_online_retails.py:129 | When the digest tells the staged StockCodes apart, rows with one product key have one StockCode. |
| VaultLaws.ProductCandidatesKeyDeterminesRow | online_retails/tasks/vault/load_hubs.py:31 | Within one run, a product key whose StockCode is determined determines the whole hub_product candidate. |
| VaultLaws.ProductHubKeepsKeysUnique | online_retails/tasks/vault/load_hubs.py:30-33 | hub_product keeps one row per key across a load, provided the digest tells the staged StockCodes apart. |
| VaultLaws.TimeKeyIdentifiesInvoiceDate | online_retails/tasks/raw/extract_online_retails.py:131 | Rows with one time key have one InvoiceDate when distinct dates render apart and the digest tells the texts apart. |
| VaultLaws.TimeSatCandidatesKeyDeterminesRow | online_retails/tasks/vault/load_sats.py:42-45 | Within one run, sat_time's attributes are functions of InvoiceDate, so a time key determines the whole candidate. |
| VaultLaws.SatTimeOneRowPerKey | online_retails/tasks/vault/load_sats.py:38-50 | sat_time keeps one row per key across a load, under the same premise on dates. |
| VaultLaws.BoundaryShiftSharesInvoiceCells | online_retails/tasks/raw/extract_online_retails.py:128 | InvoiceNo `p+q` with StockCode `s`, and InvoiceNo `p` with StockCode `q+s`, on one date, hash to one hub_invoice key. |
| VaultLaws.BoundaryShiftSharesInvoiceKey | online_retails/tasks/raw/extract_online_retails.py:122-128 | Two such lines stage to one hub_invoice key, although their hub_invoice rows differ. |
| VaultLaws.InvoiceHubBoundaryCollision | online_retails/tasks/vault/load_hubs.py:13-16 | Loaded from one extract, two such lines both enter hub_invoice, which then has a repeated key. |
| VaultLaws.RestagedExtractAddsNoHubInvoiceRows | online_retails/tasks/vault/load_hubs.py:16 | Staging the same extract again at a later time and reloading adds no hub_invoice row. |
| VaultLaws.RestagedExtractAddsNoLinkRows | online_retails/tasks/vault/load_links.py:14 | Staging the same extract again and reloading adds no row to any link. |
| VaultLaws.RestagedExtractAddsNoSatInvoiceRows | online_retails/tasks/vault/load_sats.py:14 | Staging the same extract again adds no sat_invoice row. The first load's attributes and EFFECTIVE_FROM stay. |
| Marts.Linked | online_retails/tasks/mart/build_fact_table.py:33-36 | A left join on the invoice key gives max(1, matching link rows) values. It gives NULL iff no link row matches, and gives key v iff a link row joins the invoice to v. |
| Marts.CombinedDimensions | online_retails/tasks/mart/build_fact_table.py:33-36 | A combination of four left-join results holds exactly the tuples whose every component is one its join gives. |
| Marts.DimensionChoicesMembers | online_retails/tasks/mart/build_fact_table.py:33-36 | An invoice's dimension keys are a combination of what each of the four left joins gives it. |
| Marts.DimensionChoicesCount | online_retails/tasks/mart/build_fact_table.py:33-36 | An invoice key has exactly FanOut combinations: the product over the four links of max(1, matching rows). |
| Marts.ChoicesExist | online_retails/tasks/mart/build_fact_table.py:33-36 | Every invoice key has at least one combination, so the left joins never drop a sale. |
| Marts.SaleRows | online_retails/tasks/mart/build_fact_table.py:21-36 | A matched hub/satellite pair gives one fact row per combination of its links. |
| Marts.SaleRowsMembers | online_retails/tasks/mart/build_fact_table.py:21-36 | A row is one of the pair's fact rows iff it carries the pair's values and one of the invoice's combinations. |
| Marts.MatchedPairs | online_retails/tasks/mart/build_fact_table.py:15-32 | The pairs are exactly the hub_invoice and sat_invoice rows with one key, the satellite having the selected ReturnStatus. |
| Marts.FactRowIsFed | online_retails/tasks/mart/build_fact_table.py:13-36 | Every fact row is produced by a hub row, a satellite row of the selected status under its key, and a combination of their links. |
| Marts.FedRowIsFact | online_retails/tasks/mart/build_fact_table.py:13-36 | Every row such a hub row, satellite row and combination produce is a fact row. |
| Marts.FactRowsMembers | online_retails/tasks/mart/build_fact_table.py:13-36 | Both directions: a row is in the fact SELECT iff a matched hub and satellite row and their links produce it. |
| Marts.FactRowsAreSourced | online_retails/tasks/mart/build_fact_table.py:22-32 | Every fact row's sale_id is a key of hub_invoice and of the status-filtered sat_invoice. Its InvoiceNo, quantity, unit_price and total_amount are copied unchanged. |
| Marts.LinkedNullMeansUnlinked | online_retails/tasks/mart/build_fact_table.py:33-36 | A left-join value is NULL iff the invoice has no row in that link. |
| Marts.NullDimensionMeansUnlinked | online_retails/tasks/mart/build_fact_table.py:24-36 | Each of product_key, customer_key, time_key and country_key is NULL iff the invoice has no row in that link. |
| Marts.FactRowsKeepEveryMatch | online_retails/tasks/mart/build_fact_table.py:31-36 | A matched pair of the selected status yields a fact row for every combination of its links, and at least one. |
| Marts.UnlinkedSaleHasNullProduct | online_retails/tasks/mart/build_fact_table.py:33 | A matched sale with no product link still appears, with a NULL product_key and its measures. |
| Marts.FactRowCount | online_retails/tasks/mart/build_fact_table.py:31-36 | The row count is the sum, over matched pairs, of the product over the four links of max(1, matching link rows). |
| Marts.FactKeysResolve | online_retails/tasks/mart/build_fact_table.py:24-27 | Every non-NULL dimension key is a key of its hub, when the links reference their hubs (which loading links after hubs keeps true). |
| Marts.NoReturnRowNoReturnFact | online_retails/tasks/mart/build_fact_table.py:53 | A sale_id with no Return row in sat_invoice never appears in Fact_Sale_Returns. |
| Marts.ReturnRowReachesReturnFacts | online_retails/tasks/mart/build_fact_table.py:53-73 | A Return row of sat_invoice whose key is in hub_invoice reaches Fact_Sale_Returns with its measures. |
| Marts.DimProductMembers | online_retails/tasks/mart/build_dim_table.py:14-22 | A row is in Dim_Product iff a hub_product row and a sat_product row with one key produce it. Key and StockCode come from the hub, Description from the satellite. |
| Marts.DimProductKeys | online_retails/tasks/mart/build_dim_table.py:21-22 | Dim_Product's keys are exactly the hub_product keys that have a sat_product row. |
| Marts.DimTimeMembers | online_retails/tasks/mart/build_dim_table.py:60-70 | A row is in Dim_Time iff a hub_time row and a sat_time row with one key produce it, with the satellite's date, year, month and day_of_week. |
| Marts.DimTimeKeys | online_retails/tasks/mart/build_dim_table.py:69-70 | Dim_Time's keys are exactly the hub_time keys that have a sat_time row. |
| Marts.KnownCustomers | online_retails/tasks/mart/build_dim_table.py:38 | Exactly the hub_customer rows whose CustomerID is not 0. |
| Marts.DimCustomerMembers | online_retails/tasks/mart/build_dim_table.py:37-45 | A row is in Dim_Customer iff a hub_customer row with CustomerID ≠ 0 gives its key and id, and its country_key is one the left join gives that customer. |
| Marts.DimCustomerExcludesUnknown | online_retails/tasks/mart/build_dim_table.py:38 | Dim_Customer never holds CustomerID 0. |
| Marts.DimCustomerKeepsUnlinked | online_retails/tasks/mart/build_dim_table.py:44-45 | A known customer with no customer–country link still appears, with a NULL country_key. |
| Marts.DimCountryMirrorsHub | online_retails/tasks/mart/build_dim_table.py:85-90 | Dim_Country has one row per hub_country row, with the same keys. Its keys are unique when the hub's are. |
| Marts.MartTables.FactSales | online_retails/tasks/mart/build_fact_table.py:4-39 | Fact_Sales holds exactly the fact SELECT over the current vault with status Normal. Earlier contents are gone. |
| Marts.MartTables.FactSaleReturns | online_retails/tasks/mart/build_fact_table.py:41-76 | Fact_Sale_Returns holds exactly the fact SELECT with status Return. |
| Marts.MartTables.DimProduct | online_retails/tasks/mart/build_dim_table.py:4-25 | Dim_Product holds exactly hub_product joined with sat_product. |
| Marts.MartTables.DimCustomer | online_retails/tasks/mart/build_dim_table.py:27-48 | Dim_Customer holds exactly the known customers left-joined with link_customer_country. |
| Marts.MartTables.DimTime | online_retails/tasks/mart/build_dim_table.py:50-73 | Dim_Time holds exactly hub_time joined with sat_time. |
| Marts.MartTables.DimCountry | online_retails/tasks/mart/build_dim_table.py:75-93 | Dim_Country holds exactly the projection of hub_country. |
| Quality.UnknownCustomers | online_retails/tasks/quality/marker.py:15 | Exactly the hub_customer rows whose CustomerID is 0. |
| Quality.LinkedKeysMembers | online_retails/tasks/quality/marker.py:36-38 | An inner join on the invoice key gives v iff a link row joins the invoice to v. Nothing is given for an unlinked invoice. |
| Quality.UnknownCustomerKeysMembers | online_retails/tasks/quality/marker.py:34-35 | Invoice k's customer join gives v iff a link_invoice_customer row joins k to v and v is a hub_customer key with CustomerID 0. |
| Quality.PairAnomaliesMembers | online_retails/tasks/quality/marker.py:22-38 | A row belongs to a matched pair's marks iff it carries the pair's values and one of the invoice's inner-join combinations. |
| Quality.AnomalyIsMarked | online_retails/tasks/quality/marker.py:13-38 | Every marker row is produced by a hub_invoice row, a sat_invoice row under its key, and one row of each join. |
| Quality.MarkedIsAnomaly | online_retails/tasks/quality/marker.py:13-38 | Every row so produced is a marker row. |
| Quality.AnomalyRowsMembers | online_retails/tasks/quality/marker.py:13-38 | Both directions of the two lemmas above. |
| Quality.AnomalyChoicesMembers | online_retails/tasks/quality/marker.py:34-38 | The four keys are a combination of invoice k iff each is one its join gives, the customer being one with CustomerID 0. |
| Quality.MarkedCustomerIsUnknown | online_retails/tasks/quality/marker.py:15-35 | Every marker row's customer_key is a hub_customer key with CustomerID 0 that link_invoice_customer links to the sale. |
| Quality.MarkedRowIsSourced | online_retails/tasks/quality/marker.py:23-38 | Every marker row carries its hub_invoice row's InvoiceNo and an unchanged sat_invoice row's measures. Its product, time and country keys are ones the links give the sale. |
| Quality.UnlinkedSaleIsNotMarked | online_retails/tasks/quality/marker.py:34-38 | An invoice lacking a product, customer, time or country link is never marked: the joins are inner joins. |
| Quality.FullyLinkedUnknownSaleIsMarked | online_retails/tasks/quality/marker.py:21-38 | A sale linked to a CustomerID 0 customer and to a product, time and country is marked with those keys, whatever its ReturnStatus. |
| Quality.LinkedKeyIsLinked | online_retails/tasks/quality/marker.py:36-38 | A key the inner join gives is also one the fact table's left join gives. |
| Quality.AnomalyChoiceIsDimensionChoice | online_retails/tasks/quality/marker.py:34-38 | An inner-join combination is a left-join combination of the fact builders. |
| Quality.MarkedIsFed | online_retails/tasks/quality/marker.py:22-38 | A marked row, read as a fact row, is produced by the same pair and links in the fact SELECT of its status. |
| Quality.MarkedRowIsAFact | online_retails/tasks/quality/marker.py:13-38 | Built from one vault, every marker row is a row of Fact_Sales or of Fact_Sale_Returns, according to its satellite row's status, with every dimension key present. |
| Quality.QualityTables.AnomalyCustomerInvoices | online_retails/tasks/quality/marker.py:4-41 | The marker table holds exactly the marker SELECT over the current vault. Earlier contents are gone. |
| Flow.WaitsOnEarlierTasks | online_retails/flow.py:24-67 | Every `wait_for` entry names a task declared on an earlier line. |
| Flow.UpstreamIsEarlier | online_retails/flow.py:24-67 | Everything a task waits on, directly or transitively, is declared before it. |
| Flow.UpstreamOfAllIsEarlier | online_retails/flow.py:24-67 | The same for the closure of a whole `wait_for` list. |
| Flow.NoTaskWaitsOnItself | online_retails/flow.py:24-67 | The graph is acyclic: no task is upstream of itself. |
| Flow.WaitForIsUpstream | online_retails/flow.py:24-67 | What a task waits for directly is upstream of it. |
| Flow.WaitForIsUpstreamOfAll | online_retails/flow.py:24-67 | Every entry of a `wait_for` list is in that list's closure. |
| Flow.UpstreamIsTransitive | online_retails/flow.py:24-67 | What is upstream of an upstream task is upstream too. |
| Flow.UpstreamOfAllIsTransitive | online_retails/flow.py:24-67 | The same for the closure of a `wait_for` list. |
| Flow.TwoStepsUpstream | online_retails/flow.py:24-67 | A task two `wait_for` steps back is upstream. |
| Flow.SourcesAreUpstream | online_retails/flow.py:25-54 | Every task whose table a modelled task reads finishes before that task starts. This includes the hubs the dimension builders read without naming them. |
| Flow.StagingThenHubs | online_retails/flow.py:24-32 | Staging waits on the raw load, and every hub waits on staging and so on the raw load. |
| Flow.LinkWaitsOnItsHubs | online_retails/flow.py:33-37 | Each link waits on exactly the two hubs it references. |
| Flow.SatWaitsOnItsHub | online_retails/flow.py:38-40 | Each satellite waits on exactly its own hub. |
| Flow.FactsWaitOnInvoiceVault | online_retails/flow.py:44-45 | Both fact builders wait on hub_invoice, sat_invoice and all four invoice links. |
| Flow.DimensionsWaitOnFactSales | online_retails/flow.py:48-51 | Every dimension builder waits on fact_sales. |
| Flow.DataQualityWaitsOnMarkersAndFacts | online_retails/flow.py:56 | data_quality waits on exactly both anomaly tasks and both fact builders. |

## Left out

- `loading_online_retails` (online_retails/tasks/raw/extract_online_retails.py:13-73) is not modelled. That covers the HTTP download, zip and Excel parsing, and the float product `TotalAmount = Quantity*UnitPrice`. These are I/O and floating point. The raw table is the model's input.
- The pandera schema of the staging step is not modelled. It is the parameter `schemaAccepts` of `PreparePsaOnlineRetails`. A rejection stops the task before the truncate. Coercion is not modelled, because the coerced frame is never inserted.
- SHA-256 is not modelled; it is the parameter `sha`. Collision resistance is a stated premise wherever a lemma needs it.
- Python's `astype(str)` rendering of nulls, timestamps and CustomerIDs is not modelled. These renderings are the functions of `Staging.KeyContext`. UUID keys are rendered concretely, as 8-4-4-4-12 lower-case hex.
- The clock read by `datetime.utcnow()` is not modelled; it is the parameter `now`.
- notification.py, the Prometheus push and the ClickHouse client are not modelled. They are transport only. The eight notification tasks appear in the flow only as graph nodes.
- The bodies of `anomaly_invoice`, `data_quality` and `sales_summary` are not part of this model; their source is not available. Only their `wait_for` lists are modelled, and `Flow.Sources` gives them no reads.
- Prefect retries, logging and run-time scheduling are not modelled. The flow is only its static `wait_for` graph.
- UnitPrice and TotalAmount are opaque values (`Entities.Float`), because no arithmetic is done on them.
- ClickHouse's `toDate`, `toYear`, `toMonth` and `toDayOfWeek` are abstract functions (`Vault.Calendar`).
- `NOT IN` treats keys as never NULL, so NULL semantics are not modelled.
- Quantity is a present integer. A null quantity is not modelled.
- A left join's "no match" is NULL (`None`). With ClickHouse's `join_use_nulls = 0`, the server would write the column type's default value instead. The model follows the SQL standard's NULL.
- Tables are sequences whose order carries no meaning. No lemma depends on the order in which rows are inserted.
- No whole-run method executes the flow's tasks in order. Ordering facts are stated on the graph (`Flow`). The cross-table facts are stated on the functions the methods are specified by (`VaultLaws`, `Quality.MarkedRowIsAFact`).
- ProductHubKeepsKeysUnique and SatTimeOneRowPerKey: the one-row-per-key property is proved for hub_product and sat_time only. The other hubs follow the same pattern through `Tables.InsertMissingKeepsKeysUnique`. hub_invoice is the exception: a boundary shift breaks it.
- CustomerCountryAfterHubsResolves: referential integrity is spelled out for link_customer_country. The four invoice links are covered by the generic `VaultLaws.LinkAfterHubsResolves`.

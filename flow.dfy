/**
 * The ELT flow (online_retails/flow.py).
 *
 * online_retail_elt_flow declares its tasks one after another, each with the
 * list of tasks it waits for; the scheduler runs a task once everything in
 * that list has finished.  The model is the static graph: every task, the
 * line of flow.py that declares it, and its wait_for list.  Running the
 * tasks, retries and logging are not part of it.
 */
module Flow {
  import opened Entities

  /** The eight quality metrics pushed to Prometheus (online_retails/flow.py:60-67). */
  datatype Metric =
    | AnomalyUnitPriceCount | AnomalyQuantityCount | MissingCustomerIdRatio
    | LatestMinTotalAmount | LatestMaxTotalAmount | LatestMedianTotalAmount | LatestAvgTotalAmount | LatestSalesVolume

  /** Every task the flow creates. */
  datatype Task =
    | LoadingOnlineRetails
    | PreparePsa
    | LoadHub(hub: HubKind)
    | LoadLink(link: LinkKind)
    | LoadSat(sat: SatKind)
    | FactSales | FactSaleReturns
    | DimProduct | DimCustomer | DimTime | DimCountry
    | AnomalyCustomerInvoices | AnomalyInvoice | DataQuality | SalesSummary
    | Notify(metric: Metric)

  /** The line of flow.py that creates the task. */
  function Line(t: Task): nat {
    match t
    case LoadingOnlineRetails => 24
    case PreparePsa => 25
    case LoadHub(h) => (match h case InvoiceHub => 28 case ProductHub => 29 case CustomerHub => 30 case TimeHub => 31 case CountryHub => 32)
    case LoadLink(l) =>
      (match l case InvoiceProduct => 33 case InvoiceCustomer => 34 case InvoiceTime => 35 case InvoiceCountry => 36 case CustomerCountry => 37)
    case LoadSat(s) => (match s case InvoiceSat => 38 case ProductSat => 39 case TimeSat => 40)
    case FactSales => 44
    case FactSaleReturns => 45
    case DimProduct => 48
    case DimCustomer => 49
    case DimTime => 50
    case DimCountry => 51
    case AnomalyCustomerInvoices => 54
    case AnomalyInvoice => 55
    case DataQuality => 56
    case SalesSummary => 57
    case Notify(m) =>
      (match m
       case AnomalyUnitPriceCount => 60 case AnomalyQuantityCount => 61 case MissingCustomerIdRatio => 62
       case LatestMinTotalAmount => 63 case LatestMaxTotalAmount => 64 case LatestMedianTotalAmount => 65
       case LatestAvgTotalAmount => 66 case LatestSalesVolume => 67)
  }

  /** The wait_for list of each task, in the order flow.py writes it. */
  function WaitFor(t: Task): seq<Task> {
    match t
    case LoadingOnlineRetails => []
    case PreparePsa => [LoadingOnlineRetails]
    case LoadHub(_) => [PreparePsa]
    case LoadLink(l) =>
      (match l
       case InvoiceProduct => [LoadHub(InvoiceHub), LoadHub(ProductHub)]
       case InvoiceCustomer => [LoadHub(InvoiceHub), LoadHub(CustomerHub)]
       case InvoiceTime => [LoadHub(InvoiceHub), LoadHub(TimeHub)]
       case InvoiceCountry => [LoadHub(InvoiceHub), LoadHub(CountryHub)]
       case CustomerCountry => [LoadHub(CustomerHub), LoadHub(CountryHub)])
    case LoadSat(s) =>
      (match s
       case InvoiceSat => [LoadHub(InvoiceHub)]
       case ProductSat => [LoadHub(ProductHub)]
       case TimeSat => [LoadHub(TimeHub)])
    case FactSales => FactInputs()
    case FactSaleReturns => FactInputs()
    case DimProduct => [LoadSat(ProductSat), FactSales]
    case DimCustomer => [LoadLink(CustomerCountry), FactSales]
    case DimTime => [LoadSat(TimeSat), FactSales]
    case DimCountry => [FactSales]
    case AnomalyCustomerInvoices =>
      [LoadHub(CustomerHub), LoadHub(InvoiceHub), LoadSat(InvoiceSat),
       LoadLink(InvoiceCustomer), LoadLink(InvoiceProduct), LoadLink(InvoiceTime), LoadLink(InvoiceCountry)]
    case AnomalyInvoice => [FactSales]
    case DataQuality => [AnomalyCustomerInvoices, AnomalyInvoice, FactSales, FactSaleReturns]
    case SalesSummary => [FactSales, LoadLink(InvoiceTime), LoadSat(TimeSat)]
    case Notify(m) =>
      (match m
       case AnomalyUnitPriceCount => [DataQuality]
       case AnomalyQuantityCount => [DataQuality]
       case MissingCustomerIdRatio => [DataQuality]
       case _ => [SalesSummary])
  }

  /** The wait_for list both fact builders share (online_retails/flow.py:44-45). */
  function FactInputs(): seq<Task> {
    [LoadHub(InvoiceHub), LoadSat(InvoiceSat),
     LoadLink(InvoiceProduct), LoadLink(InvoiceCustomer), LoadLink(InvoiceTime), LoadLink(InvoiceCountry)]
  }

  /**
   * The tasks whose tables a task's SQL reads: staging reads raw.online_retails,
   * the vault loaders read the staging table, and the mart and quality builders
   * read the vault tables in their FROM and JOIN clauses.  The tasks whose
   * bodies are not part of this model read nothing here.
   */
  function Sources(t: Task): set<Task> {
    match t
    case LoadingOnlineRetails => {}
    case PreparePsa => {LoadingOnlineRetails}
    case LoadHub(_) => {PreparePsa}
    case LoadLink(_) => {PreparePsa}
    case LoadSat(_) => {PreparePsa}
    case FactSales => {LoadHub(InvoiceHub), LoadSat(InvoiceSat)} + InvoiceLinkLoads()
    case FactSaleReturns => {LoadHub(InvoiceHub), LoadSat(InvoiceSat)} + InvoiceLinkLoads()
    case DimProduct => {LoadHub(ProductHub), LoadSat(ProductSat)}
    case DimCustomer => {LoadHub(CustomerHub), LoadLink(CustomerCountry)}
    case DimTime => {LoadHub(TimeHub), LoadSat(TimeSat)}
    case DimCountry => {LoadHub(CountryHub)}
    case AnomalyCustomerInvoices => {LoadHub(InvoiceHub), LoadSat(InvoiceSat), LoadHub(CustomerHub)} + InvoiceLinkLoads()
    case _ => {}
  }

  /** The loaders of the four links whose left member is hub_invoice. */
  function InvoiceLinkLoads(): set<Task> {
    {LoadLink(InvoiceProduct), LoadLink(InvoiceCustomer), LoadLink(InvoiceTime), LoadLink(InvoiceCountry)}
  }

  /** Every wait_for entry names a task declared on an earlier line. */
  lemma WaitsOnEarlierTasks(t: Task)
    ensures forall p :: p in WaitFor(t) ==> Line(p) < Line(t)
  {
  }

  /**
   * Everything the task waits for, directly or through other tasks.  The
   * recursion follows wait_for lists, which only go to earlier lines.
   */
  function Upstream(t: Task): set<Task>
    decreases Line(t), 1, 0
  {
    WaitsOnEarlierTasks(t);
    UpstreamOfAll(WaitFor(t), Line(t))
  }

  function UpstreamOfAll(ps: seq<Task>, bound: nat): set<Task>
    requires forall p :: p in ps ==> Line(p) < bound
    decreases bound, 0, |ps|
  {
    if |ps| == 0 then {} else {ps[0]} + Upstream(ps[0]) + UpstreamOfAll(ps[1..], bound)
  }

  /** Everything upstream of a task is declared before it. */
  lemma {:induction false} UpstreamIsEarlier(t: Task, p: Task)
    requires p in Upstream(t)
    ensures Line(p) < Line(t)
    decreases Line(t), 1, 0
  {
    WaitsOnEarlierTasks(t);
    UpstreamOfAllIsEarlier(WaitFor(t), Line(t), p);
  }

  lemma {:induction false} UpstreamOfAllIsEarlier(ps: seq<Task>, bound: nat, p: Task)
    requires forall q :: q in ps ==> Line(q) < bound
    requires p in UpstreamOfAll(ps, bound)
    ensures Line(p) < bound
    decreases bound, 0, |ps|
  {
    if p != ps[0] {
      if p in Upstream(ps[0]) {
        UpstreamIsEarlier(ps[0], p);
      } else {
        UpstreamOfAllIsEarlier(ps[1..], bound, p);
      }
    }
  }

  /** The graph is acyclic: no task is upstream of itself. */
  lemma NoTaskWaitsOnItself(t: Task)
    ensures t !in Upstream(t)
  {
    if t in Upstream(t) {
      UpstreamIsEarlier(t, t);
    }
  }

  /** What a task waits for directly is upstream of it. */
  lemma {:induction false} WaitForIsUpstream(t: Task, p: Task)
    requires p in WaitFor(t)
    ensures p in Upstream(t)
  {
    WaitsOnEarlierTasks(t);
    WaitForIsUpstreamOfAll(WaitFor(t), Line(t), p);
  }

  lemma {:induction false} WaitForIsUpstreamOfAll(ps: seq<Task>, bound: nat, p: Task)
    requires forall q :: q in ps ==> Line(q) < bound
    requires p in ps
    ensures p in UpstreamOfAll(ps, bound)
    decreases |ps|
  {
    if p != ps[0] {
      WaitForIsUpstreamOfAll(ps[1..], bound, p);
    }
  }

  /** Waiting is transitive: what is upstream of an upstream task is upstream too. */
  lemma {:induction false} UpstreamIsTransitive(t: Task, p: Task, q: Task)
    requires p in Upstream(t) && q in Upstream(p)
    ensures q in Upstream(t)
    decreases Line(t), 1, 0
  {
    WaitsOnEarlierTasks(t);
    UpstreamOfAllIsTransitive(WaitFor(t), Line(t), p, q);
  }

  lemma {:induction false} UpstreamOfAllIsTransitive(ps: seq<Task>, bound: nat, p: Task, q: Task)
    requires forall r :: r in ps ==> Line(r) < bound
    requires p in UpstreamOfAll(ps, bound) && q in Upstream(p)
    ensures q in UpstreamOfAll(ps, bound)
    decreases bound, 0, |ps|
  {
    if p == ps[0] {
    } else if p in Upstream(ps[0]) {
      UpstreamIsTransitive(ps[0], p, q);
    } else {
      UpstreamOfAllIsTransitive(ps[1..], bound, p, q);
    }
  }

  /** A task two wait_for steps back is upstream. */
  lemma TwoStepsUpstream(t: Task, p: Task, q: Task)
    requires p in WaitFor(t) && q in WaitFor(p)
    ensures q in Upstream(t)
  {
    WaitForIsUpstream(t, p);
    WaitForIsUpstream(p, q);
    UpstreamIsTransitive(t, p, q);
  }

  /**
   * The wait_for lists order every read after the write: each task whose
   * table a task reads finishes before that task starts, directly or through
   * the tasks it waits on.  dim_product, dim_customer, dim_time and
   * dim_country never name the hub they read; they reach it through a
   * satellite, a link or fact_sales.
   */
  lemma SourcesAreUpstream(t: Task, p: Task)
    requires p in Sources(t)
    ensures p in Upstream(t)
  {
    match t
    case LoadLink(l) => TwoStepsUpstream(t, LoadHub(Members(l).0), p);
    case LoadSat(s) => TwoStepsUpstream(t, LoadHub(Described(s)), p);
    case DimProduct =>
      if p == LoadHub(ProductHub) { TwoStepsUpstream(t, LoadSat(ProductSat), p); } else { WaitForIsUpstream(t, p); }
    case DimCustomer =>
      if p == LoadHub(CustomerHub) { TwoStepsUpstream(t, LoadLink(CustomerCountry), p); } else { WaitForIsUpstream(t, p); }
    case DimTime =>
      if p == LoadHub(TimeHub) { TwoStepsUpstream(t, LoadSat(TimeSat), p); } else { WaitForIsUpstream(t, p); }
    case DimCountry =>
      TwoStepsUpstream(FactSales, LoadLink(InvoiceCountry), p);
      WaitForIsUpstream(t, FactSales);
      UpstreamIsTransitive(t, FactSales, p);
    case _ => WaitForIsUpstream(t, p);
  }

  /** Staging waits on the raw load, and every hub waits on staging. */
  lemma StagingThenHubs(h: HubKind)
    ensures WaitFor(PreparePsa) == [LoadingOnlineRetails]
    ensures WaitFor(LoadHub(h)) == [PreparePsa]
    ensures LoadingOnlineRetails in Upstream(LoadHub(h))
  {
    WaitForIsUpstream(LoadHub(h), PreparePsa);
    WaitForIsUpstream(PreparePsa, LoadingOnlineRetails);
    UpstreamIsTransitive(LoadHub(h), PreparePsa, LoadingOnlineRetails);
  }

  /** Each link waits on exactly the loaders of the two hubs it references. */
  lemma LinkWaitsOnItsHubs(l: LinkKind)
    ensures |WaitFor(LoadLink(l))| == 2
    ensures forall p :: p in WaitFor(LoadLink(l)) <==> p == LoadHub(Members(l).0) || p == LoadHub(Members(l).1)
  {
  }

  /** Each satellite waits on exactly the loader of the hub it describes. */
  lemma SatWaitsOnItsHub(s: SatKind)
    ensures WaitFor(LoadSat(s)) == [LoadHub(Described(s))]
  {
  }

  /** Both fact builders wait on hub_invoice, sat_invoice and every link whose left member is hub_invoice. */
  lemma FactsWaitOnInvoiceVault(f: Task)
    requires f == FactSales || f == FactSaleReturns
    ensures LoadHub(InvoiceHub) in WaitFor(f) && LoadSat(InvoiceSat) in WaitFor(f)
    ensures forall l :: Members(l).0 == InvoiceHub ==> LoadLink(l) in WaitFor(f)
  {
  }

  /** Every dimension builder waits on fact_sales. */
  lemma DimensionsWaitOnFactSales(d: Task)
    requires d == DimProduct || d == DimCustomer || d == DimTime || d == DimCountry
    ensures FactSales in WaitFor(d)
  {
  }

  /** data_quality waits on both anomaly tasks and both fact builders, and nothing else. */
  lemma DataQualityWaitsOnMarkersAndFacts()
    ensures forall p :: p in WaitFor(DataQuality) <==> p in {AnomalyCustomerInvoices, AnomalyInvoice, FactSales, FactSaleReturns}
  {
  }
}

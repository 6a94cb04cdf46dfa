/**
 * The vocabulary of the Data Vault: the opaque column types the pipeline
 * carries without computing on them, the return classification, and the
 * five hubs, five links and three satellites together with the hubs each
 * link joins and each satellite describes.
 */
module Entities {

  /** A point in time (a pandas Timestamp or a ClickHouse DateTime), carried as an opaque ordinal. */
  datatype Timestamp = Timestamp(ticks: int)

  /** A calendar day (a ClickHouse Date). */
  datatype Date = Date(dayNumber: int)

  /** A double-precision float (UnitPrice, TotalAmount), carried as opaque payload: no arithmetic is done on it. */
  datatype Float = Float(bits: int)

  /** The classification the staging step gives every transaction line. */
  datatype ReturnStatus = Normal | Return

  /** The five business entities. */
  datatype HubKind = InvoiceHub | ProductHub | CustomerHub | TimeHub | CountryHub

  /** The five relationships, each between two hubs. */
  datatype LinkKind = InvoiceProduct | InvoiceCustomer | InvoiceTime | InvoiceCountry | CustomerCountry

  /** The three descriptive satellites. */
  datatype SatKind = InvoiceSat | ProductSat | TimeSat

  /** The ordered pair of hubs a link joins; its key is derived from their keys in this order. */
  function Members(l: LinkKind): (HubKind, HubKind) {
    match l
    case InvoiceProduct => (InvoiceHub, ProductHub)
    case InvoiceCustomer => (InvoiceHub, CustomerHub)
    case InvoiceTime => (InvoiceHub, TimeHub)
    case InvoiceCountry => (InvoiceHub, CountryHub)
    case CustomerCountry => (CustomerHub, CountryHub)
  }

  /** The hub whose key a satellite is keyed by. */
  function Described(s: SatKind): HubKind {
    match s
    case InvoiceSat => InvoiceHub
    case ProductSat => ProductHub
    case TimeSat => TimeHub
  }
}

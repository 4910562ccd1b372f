/**
 * The record shapes that flow through the two pipeline stages: the raw
 * queue payload, the enriched event stored in the key-value table, and the
 * aggregated record written to the partitioned store.
 *
 * JSON mappings become datatypes whose optional keys are `Option` fields;
 * numeric money amounts are `real` (floating-point rounding is not modelled).
 */
module Events {
  import opened Wrappers

  /** The `location` mapping; both keys may be missing. */
  datatype Location = Location(city: Option<string>, state: Option<string>)

  /** The `{}` that stands in for a missing `location`. */
  const EmptyLocation: Location := Location(None, None)

  /** One entry of `itemsPurchased`; only its `price` is read. */
  datatype Item = Item(price: Option<real>)

  /** A parsed message body. Every key may be missing. */
  datatype RawEvent = RawEvent(
    userId: Option<string>,
    timestamp: Option<string>,
    location: Option<Location>,
    timesPurchased: Option<int>,
    itemsPurchased: Option<seq<Item>>)

  /** The record the ingestion handler stores, keyed by `eventId`. */
  datatype EnrichedEvent = EnrichedEvent(
    eventId: string,
    userId: Option<string>,
    ingestedAt: string,
    eventTimestamp: Option<string>,
    location: Location,
    timesPurchased: int,
    totalSpent: real,
    itemsPurchased: seq<Item>)

  /** An enriched event together with the columns the batch job derives for it. */
  datatype AggregatedRecord = AggregatedRecord(
    event: EnrichedEvent,
    purchasesByCity: nat,
    avgSpendPerPurchase: real,
    highValueUser: bool,
    eventDate: Option<string>)
}

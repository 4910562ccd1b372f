/**
 * Worked examples: both stages evaluated on small inputs, including the way the
 * per-city count treats records without a city.
 */
module Scenarios {
  import opened Wrappers
  import opened Events
  import opened Enricher
  import opened Aggregator

  function Austin(user: string, id: string): EnrichedEvent {
    Enrich(
      RawEvent(Some(user), Some("2024-05-01T10:00:00Z"), Some(Location(Some("Austin"), Some("TX"))),
               Some(2), Some([Item(Some(50.0)), Item(Some(60.0))])),
      id, "2024-05-01T10:00:05")
  }

  /** One purchase event, enriched and then aggregated on its own. */
  lemma SingleEventScenario()
    ensures Austin("u1", "id-1").totalSpent == 110.0
    ensures var r := Aggregate([Austin("u1", "id-1")])[0];
            r.avgSpendPerPurchase == 55.0 && !r.highValueUser &&
            r.eventDate == Some("2024-05-01") && r.purchasesByCity == 1
  {
    var e := Austin("u1", "id-1");
    assert e.itemsPurchased == [Item(Some(50.0)), Item(Some(60.0))];
    assert e.itemsPurchased[1..] == [Item(Some(60.0))];
    assert e.totalSpent == 110.0;
    assert "2024-05-01T10:00:00Z"[..DateWidth] == "2024-05-01";
  }

  /** Three records of the same city each count all three. */
  lemma SharedCityScenario()
    ensures var s := [Austin("u1", "a"), Austin("u2", "b"), Austin("u3", "c")];
            forall i :: 0 <= i < 3 ==> Aggregate(s)[i].purchasesByCity == 3
  {
  }

  /**
   * A record without a city is grouped under "Unknown" but looked up
   * under a missing key, so it gets 0; a record whose city is literally
   * "Unknown" also counts the city-less one.
   */
  lemma MissingCityScenario()
    ensures var noCity := Enrich(RawEvent(Some("u1"), None, None, None, None), "a", "t");
            var unknown := Enrich(RawEvent(Some("u2"), None, Some(Location(Some("Unknown"), None)), None, None), "b", "t");
            var r := Aggregate([noCity, unknown]);
            r[0].purchasesByCity == 0 && r[1].purchasesByCity == 2
  {
  }
}

/**
 * The stream-ingestion handler: every queued message body is enriched with
 * a fresh identifier, an ingestion time, defaults for missing keys and the
 * total spent, and is put into the key-value table.
 *
 * The identifier generator and the clock are injected: `newId(k)` and
 * `clock(k)` are the values produced while handling the k-th record. The
 * table is an append-only log of the items put into it.
 */
module Enricher {
  import opened Wrappers
  import opened Events

  /** An item's price, with a missing `price` counted as 0. */
  function ItemPrice(item: Item): (p: real)
    ensures item.price.Some? ==> p == item.price.value
    ensures item.price.None? ==> p == 0.0
  {
    item.price.GetOr(0.0)
  }

  /** Reference definition of the total: the sum of the item prices. */
  function SumPrices(items: seq<Item>): real {
    if |items| == 0 then 0.0 else ItemPrice(items[0]) + SumPrices(items[1..])
  }

  lemma {:induction false} SumPricesAppend(a: seq<Item>, b: seq<Item>)
    ensures SumPrices(a + b) == SumPrices(a) + SumPrices(b)
  {
    if |a| == 0 {
      assert a + b == b;
    } else {
      assert (a + b)[1..] == a[1..] + b;
      SumPricesAppend(a[1..], b);
    }
  }

  /** No present price is negative. */
  predicate PricesNonNegative(items: seq<Item>) {
    forall i :: 0 <= i < |items| ==> items[i].price.GetOr(0.0) >= 0.0
  }

  lemma {:induction false} SumPricesNonNegative(items: seq<Item>)
    ensures PricesNonNegative(items) ==> SumPrices(items) >= 0.0
  {
    if |items| > 0 && PricesNonNegative(items) {
      assert PricesNonNegative(items[1..]) by {
        forall i | 0 <= i < |items[1..]|
          ensures items[1..][i].price.GetOr(0.0) >= 0.0
        {
          assert items[1..][i] == items[i + 1];
        }
      }
      SumPricesNonNegative(items[1..]);
      assert ItemPrice(items[0]) >= 0.0;
    }
  }

  /** The generator sum `sum(item.get("price", 0) for item in items)`: a left fold from 0. */
  method TotalSpent(items: seq<Item>) returns (total: real)
    ensures total == SumPrices(items)
    ensures PricesNonNegative(items) ==> total >= 0.0
  {
    total := 0.0;
    var k := 0;
    while k < |items|
      invariant 0 <= k <= |items|
      invariant total == SumPrices(items[..k])
    {
      SumPricesAppend(items[..k], [items[k]]);
      assert items[..k + 1] == items[..k] + [items[k]];
      total := total + ItemPrice(items[k]);
      k := k + 1;
    }
    assert items[..k] == items;
    SumPricesNonNegative(items);
  }

  /** The enriched record built from one parsed payload. */
  function Enrich(payload: RawEvent, eventId: string, ingestedAt: string): (e: EnrichedEvent)
    ensures e.eventId == eventId && e.ingestedAt == ingestedAt
    ensures e.userId == payload.userId
    ensures e.eventTimestamp == payload.timestamp
    ensures payload.location.Some? ==> e.location == payload.location.value
    ensures payload.location.None? ==> e.location == EmptyLocation
    ensures payload.timesPurchased.Some? ==> e.timesPurchased == payload.timesPurchased.value
    ensures payload.timesPurchased.None? ==> e.timesPurchased == 0
    ensures payload.itemsPurchased.Some? ==> e.itemsPurchased == payload.itemsPurchased.value
    ensures payload.itemsPurchased.None? ==> e.itemsPurchased == []
    ensures e.totalSpent == SumPrices(e.itemsPurchased)
    ensures e.itemsPurchased == [] ==> e.totalSpent == 0.0
    ensures PricesNonNegative(e.itemsPurchased) ==> e.totalSpent >= 0.0
  {
    var items := payload.itemsPurchased.GetOr([]);
    SumPricesNonNegative(items);
    EnrichedEvent(
      eventId, payload.userId, ingestedAt, payload.timestamp,
      payload.location.GetOr(EmptyLocation), payload.timesPurchased.GetOr(0),
      SumPrices(items), items)
  }

  /**
   * A queued message body. `Malformed` stands for a body that is missing,
   * is not JSON, or is not a JSON object: each makes the handler raise.
   */
  datatype Body = Parsed(payload: RawEvent) | Malformed

  datatype Message = Message(body: Body)

  /** The invocation event; its `Records` key may be missing. */
  datatype InvocationEvent = InvocationEvent(records: Option<seq<Message>>)

  datatype Response = Response(status: string, count: nat)

  /**
   * The handler raised while handling the record at `index`: its body could
   * not be read, or the table rejected the put of its enriched record.
   */
  datatype HandlerError = MalformedBody(index: nat) | PutRejected(index: nat)

  const Processed: string := "processed"

  /** `event.get('Records', [])` */
  function Records(event: InvocationEvent): (msgs: seq<Message>)
    ensures event.records.Some? ==> msgs == event.records.value
    ensures event.records.None? ==> msgs == []
  {
    event.records.GetOr([])
  }

  /** No two positions get the same identifier. */
  ghost predicate Injective(newId: nat -> string) {
    forall a: nat, b: nat :: newId(a) == newId(b) ==> a == b
  }

  /** The enriched record of the k-th message, when its body could be read. */
  function EnrichedAt(event: InvocationEvent, newId: nat -> string, clock: nat -> string, k: nat): (e: EnrichedEvent)
    requires k < |Records(event)| && Records(event)[k].body.Parsed?
    ensures e.eventId == newId(k) && e.ingestedAt == clock(k)
  {
    Enrich(Records(event)[k].body.payload, newId(k), clock(k))
  }

  /** The k-th message is stored: its body can be read and the table accepts its enriched record. */
  predicate Storable(event: InvocationEvent, newId: nat -> string, clock: nat -> string,
                     accepts: EnrichedEvent -> bool, k: nat)
    requires k < |Records(event)|
  {
    Records(event)[k].body.Parsed? && accepts(EnrichedAt(event, newId, clock, k))
  }

  /**
   * Handles one invocation: every record is enriched and put into the table,
   * modelled as an append to `log`, in order. `accepts` is the table's answer
   * to a put; a rejected put raises. A malformed body or a rejected put
   * aborts the invocation, after the records before it have been stored.
   */
  method Handler(event: InvocationEvent, newId: nat -> string, clock: nat -> string,
                 accepts: EnrichedEvent -> bool, log: seq<EnrichedEvent>)
    returns (log': seq<EnrichedEvent>, outcome: Result<Response, HandlerError>)
    ensures |log| <= |log'| && log'[..|log|] == log
    ensures |log'| - |log| <= |Records(event)|
    ensures forall i :: 0 <= i < |log'| - |log| ==>
              Storable(event, newId, clock, accepts, i) &&
              log'[|log| + i] == EnrichedAt(event, newId, clock, i)
    ensures outcome.Success? <==>
              forall i :: 0 <= i < |Records(event)| ==> Storable(event, newId, clock, accepts, i)
    ensures outcome.Success? ==>
              outcome.value == Response(Processed, |Records(event)|) && |log'| == |log| + |Records(event)|
    ensures outcome.Failure? ==>
              outcome.error.index < |Records(event)| &&
              !Storable(event, newId, clock, accepts, outcome.error.index) &&
              (outcome.error.MalformedBody? <==> Records(event)[outcome.error.index].body.Malformed?) &&
              |log'| == |log| + outcome.error.index
    ensures event.records.None? ==> log' == log && outcome == Success(Response(Processed, 0))
    ensures Injective(newId) ==>
              forall i, j :: |log| <= i < j < |log'| ==> log'[i].eventId != log'[j].eventId
  {
    var records := Records(event);
    log' := log;
    var k := 0;
    while k < |records|
      invariant 0 <= k <= |records|
      invariant |log'| == |log| + k && log'[..|log|] == log
      invariant forall i :: 0 <= i < k ==>
                  Storable(event, newId, clock, accepts, i) &&
                  log'[|log| + i] == EnrichedAt(event, newId, clock, i)
    {
      match records[k].body {
        case Malformed =>
          assert !Storable(event, newId, clock, accepts, k);
          outcome := Failure(MalformedBody(k));
          StoredIdsDistinct(event, newId, clock, accepts, log, log');
          return;
        case Parsed(payload) =>
          var enriched := Enrich(payload, newId(k), clock(k));
          if !accepts(enriched) {
            assert !Storable(event, newId, clock, accepts, k);
            outcome := Failure(PutRejected(k));
            StoredIdsDistinct(event, newId, clock, accepts, log, log');
            return;
          }
          log' := log' + [enriched];
          k := k + 1;
      }
    }
    outcome := Success(Response(Processed, |records|));
    StoredIdsDistinct(event, newId, clock, accepts, log, log');
  }

  /** The identifiers stored by one invocation are distinct when the supply is injective. */
  lemma StoredIdsDistinct(event: InvocationEvent, newId: nat -> string, clock: nat -> string,
                          accepts: EnrichedEvent -> bool, log: seq<EnrichedEvent>, log': seq<EnrichedEvent>)
    requires |log| <= |log'| && |log'| - |log| <= |Records(event)|
    requires forall k :: 0 <= k < |log'| - |log| ==>
               Storable(event, newId, clock, accepts, k) &&
               log'[|log| + k] == EnrichedAt(event, newId, clock, k)
    ensures Injective(newId) ==>
              forall i, j :: |log| <= i < j < |log'| ==> log'[i].eventId != log'[j].eventId
  {
    if Injective(newId) {
      forall i, j | |log| <= i < j < |log'|
        ensures log'[i].eventId != log'[j].eventId
      {
        var a, b := i - |log|, j - |log|;
        assert Storable(event, newId, clock, accepts, a) && log'[|log| + a] == EnrichedAt(event, newId, clock, a);
        assert Storable(event, newId, clock, accepts, b) && log'[|log| + b] == EnrichedAt(event, newId, clock, b);
        assert newId(a) != newId(b);
      }
    }
  }
}

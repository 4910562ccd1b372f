# Solace event pipeline — a Dafny model

The repository holds two small data-pipeline scripts. This project models
their pure core and proves properties of it.

- **Ingestion handler** (`Solace/python/glue_job.py.py`). For each queued
  message it parses the body and builds an enriched event. It copies
  `userId`, and copies `timestamp` as `eventTimestamp`. It defaults
  `location` to `{}`, `timesPurchased` to 0 and `itemsPurchased` to `[]`.
  It sums the item prices into `totalSpent`, counting a missing price as 0.
  It attaches a fresh `eventId` and an `ingestedAt` time and puts the event
  into the table. The invocation answers `{"status": "processed", "count": n}`.
  Modelled in `enricher.dfy`: `Enrich` builds one record, `TotalSpent` is
  the summing loop, and `Handler` runs the batch. The table is an
  append-only log passed in and returned; whether it accepts a put is an
  injected answer.
- **Batch job** (`Solace/python/glue_job.py`). Over the full snapshot of
  enriched events it derives four columns per record:
  - `purchasesByCity`: a group-by count over city, with "Unknown" for
    records without a city;
  - `avgSpendPerPurchase`: `totalSpent` divided by `timesPurchased`, where a
    divisor of 0 is replaced by 1;
  - `highValueUser`: `totalSpent > 200`;
  - `eventDate`: the first ten characters of `eventTimestamp`.

  Modelled in `aggregator.dfy` as `Aggregate(snapshot)`.

`events.dfy` holds the record shapes and `wrappers.dfy` the `Option` and
`Result` types. `scenarios.dfy` holds worked examples: both stages evaluated on small inputs.

Injected inputs: the identifier generator and the clock are parameters
`newId: nat -> string` and `clock: nat -> string`. `newId(k)` and `clock(k)`
are the values produced while the k-th record is handled. Money is `real`.

## Behaviour of the per-city count

The group-by (glue_job.py:27) files a record without a city under
"Unknown". The lookup (glue_job.py:28) uses the record's own `city` entry
with no default, so a record without a city finds no group and gets 0.
A record whose city is literally "Unknown" gets the size of the whole
"Unknown" group, which includes the city-less records. The model keeps this
behaviour as written. `Aggregator.PurchasesByCity` states it for every
snapshot, and `Scenarios.MissingCityScenario` shows it on a two-record
snapshot.

Two further consequences of the code:
- An empty city `""` forms a group of its own; it is not filed under "Unknown".
- The code never checks prices, so `totalSpent` can be negative.
  `totalSpent >= 0` is proved only when no price is negative. Likewise
  `avgSpendPerPurchase >= 0` needs a non-negative total and a non-negative
  `timesPurchased`.

## Model

| member | source | states |
|---|---|---|
| Enricher.ItemPrice | Solace/python/glue_job.py.py:21 | `item.get("price", 0)`: a present price is used as is, a missing one counts as 0 |
| Enricher.SumPricesAppend | Solace/python/glue_job.py.py:21 | the price total of two item lists placed end to end is the sum of their totals |
| Enricher.SumPricesNonNegative | Solace/python/glue_job.py.py:21 | when no present price is negative, the total spent is non-negative |
| Enricher.TotalSpent | Solace/python/glue_job.py.py:21 | the left-to-right summing loop, starting from 0, yields the sum of item prices (missing price = 0), so an empty list gives 0; non-negative prices give a non-negative total |
| Enricher.Enrich | Solace/python/glue_job.py.py:14-25 | the record carries the given id and ingestion time; it copies `userId` and `timestamp` (as `eventTimestamp`) unchanged. `location`, `timesPurchased` and `itemsPurchased` are copied when present and default to `{}`, 0 and `[]`. `totalSpent` agrees with the stored items, and is 0 when they are absent or empty |
| Enricher.StoredIdsDistinct | Solace/python/glue_job.py.py:11-28 | with an injective identifier supply, no two records stored by one invocation share an `eventId` |
| Enricher.Records | Solace/python/glue_job.py.py:11 | `event.get('Records', [])`: the message list when present, the empty list when the key is missing |
| Enricher.Handler | Solace/python/glue_job.py.py:10-29 | earlier table contents are kept. The k-th record, enriched with the k-th id and time, is put (appended) in input order. Success iff every body parses and the table accepts every put: then count = number of `Records`, 0 when `Records` is absent, one stored record per message. Otherwise the invocation aborts at the first message whose body is malformed or whose put is rejected, reporting which of the two, after the records before it were stored. Stored ids are distinct for an injective supply |
| Aggregator.GroupKey | Solace/python/glue_job.py:27 | the group-by key `l.get('city', 'Unknown')`: the city when present, "Unknown" otherwise |
| Aggregator.CountKeyAppend | Solace/python/glue_job.py:27 | the size of a city group over two snapshot parts placed end to end is the sum of its sizes over each part |
| Aggregator.CountKeyLast | Solace/python/glue_job.py:27 | appending one record grows exactly its own group by one |
| Aggregator.CountKeySplit | Solace/python/glue_job.py:27 | the "Unknown" group holds the records with city "Unknown" and the records without a city. Any other group holds exactly the records of its city |
| Aggregator.CountKeyRemove | Solace/python/glue_job.py:27 | removing one record from the snapshot lowers its own group by one and leaves every other group unchanged |
| Aggregator.CountKeyPermutation | Solace/python/glue_job.py:27 | group sizes depend only on the snapshot's records, not on their order (the proof matches the first record inside the reordering with the helper lemmas `MatchFirst` and `MultisetRemove`) |
| Aggregator.SizeOf | Solace/python/glue_job.py:28 | `city_counts.get(key, 0)`: a missing key (`None`) and a label not in the group-by both give 0; with distinct labels, a label gives its own group's size |
| Aggregator.Bump | Solace/python/glue_job.py:27 | adding one record to the group-by result grows its key's size by one and leaves every other size unchanged. It adds its key to the labels and keeps labels distinct and groups non-empty. The total rises by one |
| Aggregator.GroupSizes | Solace/python/glue_job.py:27 | the group-by has one non-empty group per distinct key of the snapshot (city, or "Unknown"). Each group's size is the number of records with that key. The sizes sum to the snapshot length |
| Aggregator.PurchasesByCity | Solace/python/glue_job.py:27-28 | looking up a missing city gives 0. Looking up city c gives the number of records with city c, plus the city-less records when c is "Unknown" |
| Aggregator.Divisor | Solace/python/glue_job.py:31 | the divisor is never 0: a `timesPurchased` of 0 becomes 1, any other value is kept |
| Aggregator.AvgSpend | Solace/python/glue_job.py:31 | average times divisor gives back `totalSpent`. With 0 purchases the average equals `totalSpent`. A non-negative total with non-negative purchases gives a non-negative average |
| Aggregator.EventDate | Solace/python/glue_job.py:42 | the date is a prefix of the timestamp, at most 10 characters long. It is exactly 10 characters when the timestamp is that long, and the whole timestamp when shorter. It never fails; a missing timestamp gives a missing date |
| Aggregator.Derive | Solace/python/glue_job.py:28-42 | one record's derived columns: the record unchanged, its city's looked-up group size, an average that times the divisor gives back `totalSpent`, the flag iff `totalSpent > 200`, and the truncated date |
| Aggregator.DeriveAll | Solace/python/glue_job.py:28-34 | the per-row `apply`: one output per record, same length and order, each the record's `Derive` against the same group sizes |
| Aggregator.Aggregate | Solace/python/glue_job.py:27-42 | one output record per snapshot record, same order, original fields unchanged. `purchasesByCity` is 0 without a city; otherwise it is the count of records with that city, plus the city-less ones for "Unknown". `highValueUser` iff `totalSpent > 200`, so false at exactly 200. The average and the date are as above |
| Aggregator.AggregateOrderIndependent | Solace/python/glue_job.py:27-34 | a record gets the same derived columns in any reordering of the snapshot, so two runs over the same snapshot agree |
| Scenarios.SingleEventScenario | Solace/python/glue_job.py:27-42 | an Austin event with prices 50 and 60 and 2 purchases, aggregated alone: totalSpent 110, average 55, not high value, date "2024-05-01", city count 1 |
| Scenarios.SharedCityScenario | Solace/python/glue_job.py:27-28 | three records of the same city each get `purchasesByCity = 3` |
| Scenarios.MissingCityScenario | Solace/python/glue_job.py:27-28 | a city-less record gets 0 and a record of city "Unknown" gets 2 in a snapshot holding one of each |

## Left out

- Glue, Spark and pandas job setup, the catalog read and the DataFrame conversions (glue_job.py:8-23, 37). These are infrastructure; the snapshot is the input sequence.
- The Parquet write, its overwrite mode and its `(state, eventDate)` partition layout (glue_job.py:40-45). This is object-store I/O; the model stops at the records that get written.
- The boto3 client, the table lookup from the environment and `put_item` (glue_job.py.py:7-8, 28). This is I/O; a put is an append to the returned log, and whether the table accepts it is the injected answer `accepts`.
- Enricher.Handler: why a put is rejected is not modelled. In the source, boto3's DynamoDB serializer rejects Python floats, so a message with any non-integer JSON number (a price such as `19.99` or `50.0`) raises at glue_job.py.py:28 and stops the batch. Prices here are `real`s that do not record how they were written, so the model cannot derive that rejection; it takes the table's answer as the input `accepts` instead.
- `json.loads` (glue_job.py.py:12). A body that is missing, is not JSON or is not an object is `Malformed`. It makes the handler raise, which the model returns as a failure.
- JSON `null` values and values of the wrong type. The typed record shapes cannot represent them. Some make the code raise: a non-numeric price at glue_job.py.py:21, and `location: null`, which is stored without error at glue_job.py.py:19 but raises at glue_job.py:27. Others pass silently: a null `timesPurchased` gives a NaN average at glue_job.py:31, and a null city gives a null group key at glue_job.py:27, which pandas drops from the group-by, so such a record is in no group at all.
- Item keys other than `price`, and location keys other than `city` and `state`. The source copies the whole `itemsPurchased` list and `location` mapping, but nothing derived reads those keys; the model drops both: `Item` keeps only `price` and `Location` only `city` and `state`.
- `uuid4()` and `utcnow()` (glue_job.py.py:15, 17). These are nondeterministic and are parameters here.
- The order of the group-by index. pandas sorts the labels, but only lookups by label are used, so the model keeps first-seen order.
- Floating-point rounding and pandas dtype coercion. Prices and averages are exact `real`s.
- Enricher.Enrich: `ingestedAt` is an opaque string. Its ISO-8601 format is not modelled.

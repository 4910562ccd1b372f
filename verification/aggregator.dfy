/**
 * The batch job's derived columns: for every enriched record of the full
 * snapshot it computes the per-city purchase count (a group-by over the
 * whole snapshot), the average spend per purchase, the high-value flag and
 * the date used as an output partition.
 */
module Aggregator {
  import opened Wrappers
  import opened Events

  /** The group label of records whose location has no city. */
  const UnknownCity: string := "Unknown"

  /** Spending strictly above this marks a high-value user. */
  const HighValueThreshold: real := 200.0

  /** Number of leading characters of the timestamp kept as the event date. */
  const DateWidth: nat := 10

  // ---------------------------------------------------------------------------
  // Counting records by city
  // ---------------------------------------------------------------------------

  /** The group-by key of a record: its city, or "Unknown" when it has none. */
  function GroupKey(loc: Location): (k: string)
    ensures loc.city.Some? ==> k == loc.city.value
    ensures loc.city.None? ==> k == UnknownCity
  {
    loc.city.GetOr(UnknownCity)
  }

  /** Reference definition: the number of records whose group-by key is `k`. */
  function CountKey(s: seq<EnrichedEvent>, k: string): nat {
    if |s| == 0 then 0
    else (if GroupKey(s[0].location) == k then 1 else 0) + CountKey(s[1..], k)
  }

  /** The number of records whose `city` entry is exactly `c` (`None`: no city). */
  function CountCity(s: seq<EnrichedEvent>, c: Option<string>): nat {
    if |s| == 0 then 0
    else (if s[0].location.city == c then 1 else 0) + CountCity(s[1..], c)
  }

  lemma {:induction false} CountKeyAppend(a: seq<EnrichedEvent>, b: seq<EnrichedEvent>, k: string)
    ensures CountKey(a + b, k) == CountKey(a, k) + CountKey(b, k)
  {
    if |a| == 0 {
      assert a + b == b;
    } else {
      assert (a + b)[1..] == a[1..] + b;
      CountKeyAppend(a[1..], b, k);
    }
  }

  /** Counting a snapshot with one more record at its end. */
  lemma {:induction false} CountKeyLast(s: seq<EnrichedEvent>)
    requires |s| > 0
    ensures forall k :: CountKey(s, k) ==
              CountKey(s[..|s| - 1], k) + (if GroupKey(s[|s| - 1].location) == k then 1 else 0)
  {
    assert s == s[..|s| - 1] + [s[|s| - 1]];
    forall k: string
      ensures CountKey(s, k) ==
                CountKey(s[..|s| - 1], k) + (if GroupKey(s[|s| - 1].location) == k then 1 else 0)
    {
      CountKeyAppend(s[..|s| - 1], [s[|s| - 1]], k);
    }
  }

  /**
   * The "Unknown" group holds the records whose city is "Unknown" and the
   * records without a city; every other group holds exactly its city's records.
   */
  lemma {:induction false} CountKeySplit(s: seq<EnrichedEvent>, k: string)
    ensures CountKey(s, k) == CountCity(s, Some(k)) + (if k == UnknownCity then CountCity(s, None) else 0)
  {
    if |s| > 0 {
      CountKeySplit(s[1..], k);
    }
  }

  /** Removing the record at `j` lowers its own group by one and leaves every other group alone. */
  lemma {:induction false} CountKeyRemove(t: seq<EnrichedEvent>, j: nat, k: string)
    requires j < |t|
    ensures CountKey(t, k) ==
              CountKey(t[..j] + t[j + 1..], k) + (if GroupKey(t[j].location) == k then 1 else 0)
  {
    assert t == t[..j] + ([t[j]] + t[j + 1..]);
    CountKeyAppend(t[..j], [t[j]] + t[j + 1..], k);
    CountKeyAppend([t[j]], t[j + 1..], k);
    CountKeyAppend(t[..j], t[j + 1..], k);
    assert CountKey([t[j]], k) == if GroupKey(t[j].location) == k then 1 else 0;
  }

  /** Removing the record at `j` removes one occurrence of it from the snapshot's multiset. */
  lemma {:induction false} MultisetRemove(t: seq<EnrichedEvent>, j: nat)
    requires j < |t|
    ensures multiset(t[..j] + t[j + 1..]) == multiset(t) - multiset{t[j]}
  {
    assert t == t[..j] + [t[j]] + t[j + 1..];
  }

  /** The position of the first occurrence of `x` in `t`. */
  function IndexOf(t: seq<EnrichedEvent>, x: EnrichedEvent): (j: nat)
    requires x in multiset(t)
    ensures j < |t| && t[j] == x
  {
    if t[0] == x then 0
    else
      assert t == [t[0]] + t[1..];
      1 + IndexOf(t[1..], x)
  }

  /** A snapshot's first record can be matched in any reordering of it; the rest stay reorderings. */
  lemma {:induction false} MatchFirst(s: seq<EnrichedEvent>, t: seq<EnrichedEvent>) returns (j: nat)
    requires |s| > 0 && multiset(s) == multiset(t)
    ensures j < |t| && t[j] == s[0]
    ensures multiset(s[1..]) == multiset(t[..j] + t[j + 1..])
  {
    assert s == [s[0]] + s[1..];
    assert multiset(s) == multiset{s[0]} + multiset(s[1..]);
    j := IndexOf(t, s[0]);
    MultisetRemove(t, j);
  }

  /** Reordering the snapshot does not change any group's size. */
  lemma {:induction false} CountKeyPermutation(s: seq<EnrichedEvent>, t: seq<EnrichedEvent>, k: string)
    requires multiset(s) == multiset(t)
    ensures CountKey(s, k) == CountKey(t, k)
  {
    if |s| == 0 {
      assert |t| == |multiset(t)| == 0;
    } else {
      var j := MatchFirst(s, t);
      CountKeyPermutation(s[1..], t[..j] + t[j + 1..], k);
      CountKeyRemove(t, j, k);
    }
  }


  // ---------------------------------------------------------------------------
  // The group-by result: one labelled size per distinct key
  // ---------------------------------------------------------------------------

  datatype Group = Group(key: string, size: nat)

  /** The labels of the groups. */
  function Keys(g: seq<Group>): set<string> {
    if |g| == 0 then {} else {g[0].key} + Keys(g[1..])
  }

  lemma {:induction false} KeysContain(g: seq<Group>)
    ensures forall i :: 0 <= i < |g| ==> g[i].key in Keys(g)
  {
    if |g| > 0 {
      KeysContain(g[1..]);
      assert forall i :: 0 < i < |g| ==> g[i] == g[1..][i - 1];
    }
  }

  /** No label appears twice. */
  predicate DistinctKeys(g: seq<Group>) {
    |g| == 0 || (g[0].key !in Keys(g[1..]) && DistinctKeys(g[1..]))
  }

  /** Every group holds at least one record. */
  predicate NonEmptyGroups(g: seq<Group>) {
    |g| == 0 || (g[0].size >= 1 && NonEmptyGroups(g[1..]))
  }

  /** The sum of all group sizes. */
  function TotalSize(g: seq<Group>): nat {
    if |g| == 0 then 0 else g[0].size + TotalSize(g[1..])
  }

  /**
   * `city_counts.get(key, 0)`: the size of the group labelled `key`, or 0
   * when there is none. Every label is a string, so a missing key (`None`)
   * never finds a group.
   */
  function SizeOf(g: seq<Group>, key: Option<string>): (n: nat)
    ensures key.None? ==> n == 0
    ensures key.Some? && key.value !in Keys(g) ==> n == 0
    ensures DistinctKeys(g) ==> forall i :: 0 <= i < |g| && Some(g[i].key) == key ==> n == g[i].size
  {
    match key
    case None => 0
    case Some(k) =>
      if |g| == 0 then 0
      else if g[0].key == k then
        KeysContain(g[1..]);
        assert forall i :: 0 < i < |g| ==> g[i] == g[1..][i - 1];
        g[0].size
      else
        assert forall i :: 0 < i < |g| ==> g[i] == g[1..][i - 1];
        SizeOf(g[1..], key)
  }

  /** Adds one record with key `k` to the group-by result. */
  function Bump(g: seq<Group>, k: string): (g': seq<Group>)
    ensures forall c :: SizeOf(g', Some(c)) == SizeOf(g, Some(c)) + (if c == k then 1 else 0)
    ensures TotalSize(g') == TotalSize(g) + 1
    ensures Keys(g') == Keys(g) + {k}
    ensures DistinctKeys(g) ==> DistinctKeys(g')
    ensures NonEmptyGroups(g) ==> NonEmptyGroups(g')
  {
    if |g| == 0 then [Group(k, 1)]
    else if g[0].key == k then
      var g' := [Group(k, g[0].size + 1)] + g[1..];
      assert g'[1..] == g[1..];
      g'
    else
      var g' := [g[0]] + Bump(g[1..], k);
      assert g'[1..] == Bump(g[1..], k);
      g'
  }

  /** The group keys present in a snapshot. */
  function SnapshotKeys(s: seq<EnrichedEvent>): set<string> {
    set i | 0 <= i < |s| :: GroupKey(s[i].location)
  }

  /**
   * `groupby(city or "Unknown").size()`: one group per distinct key of the
   * snapshot, each of the size the reference count gives, the sizes adding
   * up to the snapshot's length.
   */
  function GroupSizes(s: seq<EnrichedEvent>): (g: seq<Group>)
    ensures forall c :: SizeOf(g, Some(c)) == CountKey(s, c)
    ensures DistinctKeys(g) && NonEmptyGroups(g)
    ensures Keys(g) == SnapshotKeys(s)
    ensures TotalSize(g) == |s|
  {
    if |s| == 0 then []
    else
      var init := s[..|s| - 1];
      var last := GroupKey(s[|s| - 1].location);
      CountKeyLast(s);
      assert SnapshotKeys(s) == SnapshotKeys(init) + {last} by {
        assert forall i :: 0 <= i < |init| ==> init[i] == s[i];
      }
      Bump(GroupSizes(init), last)
  }

  // ---------------------------------------------------------------------------
  // Per-record columns
  // ---------------------------------------------------------------------------

  /** `timesPurchased.replace(0, 1)`: the divisor of the average. */
  function Divisor(timesPurchased: int): (d: int)
    ensures d != 0
    ensures timesPurchased != 0 ==> d == timesPurchased
    ensures timesPurchased == 0 ==> d == 1
  {
    if timesPurchased == 0 then 1 else timesPurchased
  }

  /** `totalSpent / timesPurchased.replace(0, 1)`. */
  function AvgSpend(totalSpent: real, timesPurchased: int): (avg: real)
    ensures avg * (Divisor(timesPurchased) as real) == totalSpent
    ensures timesPurchased == 0 ==> avg == totalSpent
    ensures totalSpent >= 0.0 && timesPurchased >= 0 ==> avg >= 0.0
  {
    totalSpent / (Divisor(timesPurchased) as real)
  }

  /**
   * `eventTimestamp.substr(1, 10)`: the first ten characters, or the whole
   * timestamp when it is shorter; a missing timestamp stays missing.
   */
  function EventDate(timestamp: Option<string>): (date: Option<string>)
    ensures date.Some? <==> timestamp.Some?
    ensures date.Some? ==> date.value <= timestamp.value && |date.value| <= DateWidth
    ensures date.Some? && |timestamp.value| >= DateWidth ==> |date.value| == DateWidth
    ensures date.Some? && |timestamp.value| < DateWidth ==> date.value == timestamp.value
  {
    match timestamp
    case None => None
    case Some(t) => Some(if |t| <= DateWidth then t else t[..DateWidth])
  }

  /** The derived columns of one record, given the snapshot's group sizes. */
  function Derive(e: EnrichedEvent, groups: seq<Group>): (r: AggregatedRecord)
    ensures r.event == e
    ensures r.purchasesByCity == SizeOf(groups, e.location.city)
    ensures r.avgSpendPerPurchase * (Divisor(e.timesPurchased) as real) == e.totalSpent
    ensures r.highValueUser <==> e.totalSpent > HighValueThreshold
    ensures r.eventDate == EventDate(e.eventTimestamp)
  {
    AggregatedRecord(
      e,
      SizeOf(groups, e.location.city),
      AvgSpend(e.totalSpent, e.timesPurchased),
      e.totalSpent > HighValueThreshold,
      EventDate(e.eventTimestamp))
  }

  /** The derived columns of each record, in order. */
  function DeriveAll(s: seq<EnrichedEvent>, groups: seq<Group>): (r: seq<AggregatedRecord>)
    ensures |r| == |s|
    ensures forall i :: 0 <= i < |s| ==> r[i] == Derive(s[i], groups)
  {
    if |s| == 0 then [] else [Derive(s[0], groups)] + DeriveAll(s[1..], groups)
  }

  /**
   * `city_counts.get(l.get('city'), 0)`: a record without a city finds no
   * group; a record with city `c` finds the records of city `c`, together
   * with the records without a city when `c` is "Unknown".
   */
  lemma {:induction false} PurchasesByCity(s: seq<EnrichedEvent>)
    ensures SizeOf(GroupSizes(s), None) == 0
    ensures forall c :: SizeOf(GroupSizes(s), Some(c)) ==
              CountCity(s, Some(c)) + (if c == UnknownCity then CountCity(s, None) else 0)
  {
    forall c: string
      ensures SizeOf(GroupSizes(s), Some(c)) ==
                CountCity(s, Some(c)) + (if c == UnknownCity then CountCity(s, None) else 0)
    {
      CountKeySplit(s, c);
    }
  }

  /** Every record of the snapshot with its derived columns, in snapshot order. */
  function Aggregate(s: seq<EnrichedEvent>): (r: seq<AggregatedRecord>)
    ensures |r| == |s|
    ensures forall i :: 0 <= i < |s| ==> r[i].event == s[i]
    ensures forall i :: 0 <= i < |s| && s[i].location.city.None? ==> r[i].purchasesByCity == 0
    ensures forall i :: 0 <= i < |s| && s[i].location.city.Some? ==>
              var c := s[i].location.city.value;
              r[i].purchasesByCity ==
                CountCity(s, Some(c)) + (if c == UnknownCity then CountCity(s, None) else 0)
    ensures forall i :: 0 <= i < |s| ==>
              r[i].avgSpendPerPurchase == AvgSpend(s[i].totalSpent, s[i].timesPurchased)
    ensures forall i :: 0 <= i < |s| ==> (r[i].highValueUser <==> s[i].totalSpent > HighValueThreshold)
    ensures forall i :: 0 <= i < |s| ==> r[i].eventDate == EventDate(s[i].eventTimestamp)
  {
    PurchasesByCity(s);
    DeriveAll(s, GroupSizes(s))
  }

  /**
   * The result depends on the snapshot only as a collection: a record gets
   * the same columns wherever it sits in any reordering of the snapshot. In
   * particular two runs over the same snapshot agree.
   */
  lemma {:induction false} AggregateOrderIndependent(s: seq<EnrichedEvent>, t: seq<EnrichedEvent>, i: nat, j: nat)
    requires multiset(s) == multiset(t)
    requires i < |s| && j < |t| && s[i] == t[j]
    ensures Aggregate(s)[i] == Aggregate(t)[j]
  {
    var c := s[i].location.city;
    if c.Some? {
      CountKeyPermutation(s, t, c.value);
    }
    assert SizeOf(GroupSizes(s), c) == SizeOf(GroupSizes(t), c);
  }
}

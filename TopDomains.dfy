/**
 * The "top permitted domains" report: the payload received from the API is
 * reshaped into the dataset the table works on, each domain becomes one row
 * with its share of all queries, and the fetch used depends on whether a
 * time range is selected.
 */
module TopDomains {
  import opened Wrappers
  import opened TimeRangeContext

  /** One entry of the API's list: a domain and how often it was queried. */
  datatype ApiTopDomainItem = ApiTopDomainItem(domain: string, count: nat)

  /** The payload as the API sends it. */
  datatype ApiTopDomains = ApiTopDomains(total_queries: nat, top_domains: seq<ApiTopDomainItem>)

  /** The dataset the table keeps and renders. */
  datatype TopDomainsData = TopDomainsData(totalQueries: nat, topDomains: seq<ApiTopDomainItem>)

  /**
   * What one table row shows: its key, the domain cell, the hit count and the
   * width of the frequency bar in percent (exact, before any text formatting).
   */
  datatype Row = Row(key: string, domain: string, count: nat, percentage: real)

  /** The two fetch operations the report can be given. */
  datatype ApiCall = GetTopDomains | GetTopDomainsDb(range: TimeRange)

  // ---------------------------------------------------------------------------
  // transformData

  /** The payload a dataset was made from: the inverse of TransformData. */
  function ApiOf(data: TopDomainsData): ApiTopDomains
  {
    ApiTopDomains(data.totalQueries, data.topDomains)
  }

  /** Renames the two top-level fields; the item list is passed on as it is. */
  function TransformData(data: ApiTopDomains): (r: TopDomainsData)
    ensures ApiOf(r) == data
  {
    TopDomainsData(data.total_queries, data.top_domains)
  }

  /** Nothing is lost or invented by the transform, in either direction. */
  lemma TransformDataBijective(payload: ApiTopDomains, data: TopDomainsData)
    ensures TransformData(ApiOf(data)) == data
    ensures TransformData(payload) == data <==> payload == ApiOf(data)
  {
  }

  /**
   * The dataset keeps the total and the very same items, in the same order,
   * each with its `domain` and `count` unrenamed.
   */
  lemma TransformDataKeepsItems(payload: ApiTopDomains)
    ensures TransformData(payload).totalQueries == payload.total_queries
    ensures |TransformData(payload).topDomains| == |payload.top_domains|
    ensures forall i :: 0 <= i < |payload.top_domains| ==>
      TransformData(payload).topDomains[i].domain == payload.top_domains[i].domain &&
      TransformData(payload).topDomains[i].count == payload.top_domains[i].count
  {
  }

  // ---------------------------------------------------------------------------
  // generateRows

  /** The share of `total` that `count` is, in percent. */
  function Percentage(count: nat, total: nat): (p: real)
    requires total > 0
    ensures p * total as real == count as real * 100.0
    ensures 0.0 <= p
    ensures count <= total ==> p <= 100.0
  {
    var p := (count as real / total as real) * 100.0;
    assert p * total as real == count as real * 100.0;
    p
  }

  /**
   * The row `generateRows` builds for one item: keyed and labelled by the
   * domain, showing the count, with a bar that is the count's share of the
   * total.
   */
  function RowFor(item: ApiTopDomainItem, total: nat): (row: Row)
    requires total > 0
    ensures row.key == item.domain && row.domain == item.domain
    ensures row.count == item.count
    ensures row.percentage * total as real == item.count as real * 100.0
    ensures item.count <= total ==> 0.0 <= row.percentage <= 100.0
  {
    Row(item.domain, item.domain, item.count, Percentage(item.count, total))
  }

  /**
   * One row per item, in order. The percentage is taken against the dataset's
   * total; with no items nothing is divided, so a zero total is only
   * excluded when there are items.
   */
  function GenerateRows(data: TopDomainsData): (rows: seq<Row>)
    requires data.totalQueries > 0 || data.topDomains == []
    ensures |rows| == |data.topDomains|
    ensures forall i :: 0 <= i < |rows| ==> rows[i] == RowFor(data.topDomains[i], data.totalQueries)
    decreases |data.topDomains|
  {
    if data.topDomains == [] then []
    else
      [RowFor(data.topDomains[0], data.totalQueries)]
        + GenerateRows(TopDomainsData(data.totalQueries, data.topDomains[1..]))
  }

  /**
   * Row i is keyed and labelled by item i's domain, shows its count, and its
   * bar is that count's share of the dataset's total.
   */
  lemma GenerateRowsAt(data: TopDomainsData, i: nat)
    requires data.totalQueries > 0
    requires i < |data.topDomains|
    ensures i < |GenerateRows(data)|
    ensures GenerateRows(data)[i].key == data.topDomains[i].domain
    ensures GenerateRows(data)[i].domain == data.topDomains[i].domain
    ensures GenerateRows(data)[i].count == data.topDomains[i].count
    ensures GenerateRows(data)[i].percentage
         == (data.topDomains[i].count as real / data.totalQueries as real) * 100.0
  {
  }

  /** With every count at most the total, every bar is between 0 and 100 percent. */
  lemma GenerateRowsPercentagesBounded(data: TopDomainsData)
    requires data.totalQueries > 0 || data.topDomains == []
    requires forall i :: 0 <= i < |data.topDomains| ==> data.topDomains[i].count <= data.totalQueries
    ensures forall i :: 0 <= i < |GenerateRows(data)| ==>
      0.0 <= GenerateRows(data)[i].percentage <= 100.0
  {
  }

  /** Rows of a concatenated list are the rows of its parts, in order. */
  lemma GenerateRowsAppend(total: nat, xs: seq<ApiTopDomainItem>, ys: seq<ApiTopDomainItem>)
    requires total > 0 || (xs == [] && ys == [])
    ensures GenerateRows(TopDomainsData(total, xs + ys))
         == GenerateRows(TopDomainsData(total, xs)) + GenerateRows(TopDomainsData(total, ys))
  {
  }

  /** Distinct domains give distinct row keys. */
  lemma GenerateRowsKeysDistinct(data: TopDomainsData)
    requires data.totalQueries > 0 || data.topDomains == []
    requires forall i, j :: 0 <= i < j < |data.topDomains| ==> data.topDomains[i].domain != data.topDomains[j].domain
    ensures forall i, j :: 0 <= i < j < |GenerateRows(data)| ==> GenerateRows(data)[i].key != GenerateRows(data)[j].key
  {
  }

  /** Sum of all item counts. */
  function TotalCount(items: seq<ApiTopDomainItem>): nat
  {
    if items == [] then 0 else items[0].count + TotalCount(items[1..])
  }

  /** Sum of all row percentages. */
  function PercentageSum(rows: seq<Row>): real
  {
    if rows == [] then 0.0 else rows[0].percentage + PercentageSum(rows[1..])
  }

  /**
   * The percentages add up to the items' share of the dataset's total: the
   * denominator is `totalQueries`, not the sum of the listed counts.
   */
  lemma {:induction false} PercentageSumScales(data: TopDomainsData)
    requires data.totalQueries > 0 || data.topDomains == []
    ensures PercentageSum(GenerateRows(data)) * data.totalQueries as real
         == TotalCount(data.topDomains) as real * 100.0
    decreases |data.topDomains|
  {
    var items := data.topDomains;
    if items != [] {
      var t := data.totalQueries;
      var rest := TopDomainsData(t, items[1..]);
      var rows := GenerateRows(data);
      assert rows[1..] == GenerateRows(rest);
      PercentageSumScales(rest);
      var p0 := rows[0].percentage;
      var s := PercentageSum(GenerateRows(rest));
      assert p0 * t as real == items[0].count as real * 100.0;
      assert (p0 + s) * t as real == p0 * t as real + s * t as real;
    }
  }

  /** The bars add up to exactly 100 percent if and only if the counts add up to the total. */
  lemma {:induction false} PercentagesSumTo100Iff(data: TopDomainsData)
    requires data.totalQueries > 0
    ensures PercentageSum(GenerateRows(data)) == 100.0 <==> TotalCount(data.topDomains) == data.totalQueries
  {
    PercentageSumScales(data);
    WholeShare(PercentageSum(GenerateRows(data)), TotalCount(data.topDomains), data.totalQueries);
  }

  /** A share of `s` percent of `total` that covers `count` is the whole exactly when `count == total`. */
  lemma {:induction false} WholeShare(s: real, count: nat, total: nat)
    requires total > 0
    requires s * total as real == count as real * 100.0
    ensures s == 100.0 <==> count == total
  {
    var t := total as real;
    if count == total {
      CancelPositive(s, 100.0, t);
    }
    if s == 100.0 {
      calc {
        count as real * 100.0;
        s * t;
        100.0 * t;
      }
      CancelPositive(count as real, t, 100.0);
    }
  }

  /** Equal products with the same positive factor have equal cofactors. */
  lemma {:induction false} CancelPositive(a: real, b: real, t: real)
    requires t > 0.0
    requires a * t == b * t
    ensures a == b
  {
    calc {
      a;
      (a * t) / t;
      (b * t) / t;
      b;
    }
  }

  // ---------------------------------------------------------------------------
  // Configuration handed to the table

  /** The table's emptiness test: no domains listed, whatever the total. */
  predicate IsEmpty(data: TopDomainsData): (empty: bool)
    ensures empty <==> forall item :: item !in data.topDomains
  {
    assert data.topDomains != [] ==> data.topDomains[0] in data.topDomains;
    |data.topDomains| == 0
  }

  /** The dataset the table shows before the first fetch completes. */
  function InitialData(): (d: TopDomainsData)
    ensures d.totalQueries == 0
    ensures IsEmpty(d)
    ensures GenerateRows(d) == []
  {
    TopDomainsData(0, [])
  }

  /**
   * The table is empty exactly when it would render no rows, and emptiness
   * does not look at the total.
   */
  lemma IsEmptyIffNoRows(data: TopDomainsData, otherTotal: nat)
    requires data.totalQueries > 0 || data.topDomains == []
    ensures IsEmpty(data) <==> GenerateRows(data) == []
    ensures IsEmpty(data) <==> IsEmpty(data.(totalQueries := otherTotal))
  {
  }

  // ---------------------------------------------------------------------------
  // Fetch selection

  /** The range a fetch operation is scoped to, if any. */
  function RangeOf(call: ApiCall): Option<TimeRange>
  {
    match call
    case GetTopDomains => None
    case GetTopDomainsDb(range) => Some(range)
  }

  /** The range-scoped fetch when a range is selected, the default fetch otherwise. */
  function SelectApiCall(range: Option<TimeRange>): (call: ApiCall)
    ensures call.GetTopDomainsDb? <==> range.Some?
    ensures RangeOf(call) == range
  {
    match range
    case Some(r) => GetTopDomainsDb(r)
    case None => GetTopDomains
  }

  /** Different observed ranges (or presence versus absence) select different fetches. */
  lemma SelectApiCallInjective(a: Option<TimeRange>, b: Option<TimeRange>)
    ensures SelectApiCall(a) == SelectApiCall(b) <==> a == b
  {
  }

  // ---------------------------------------------------------------------------
  // The pipeline as the table runs it

  /**
   * The rows shown for a fetched payload follow the payload's own list:
   * same length, same order, each row keyed by its domain, and each share
   * taken against the payload's total.
   */
  lemma PipelineRows(payload: ApiTopDomains)
    requires payload.total_queries > 0 || payload.top_domains == []
    ensures |GenerateRows(TransformData(payload))| == |payload.top_domains|
    ensures forall i :: 0 <= i < |payload.top_domains| ==>
      GenerateRows(TransformData(payload))[i]
        == RowFor(payload.top_domains[i], payload.total_queries)
  {
  }

  /** The two-domain payload worked through end to end. */
  lemma TwoDomainExample()
    ensures var payload := ApiTopDomains(10, [ApiTopDomainItem("a.com", 7), ApiTopDomainItem("b.com", 3)]);
      GenerateRows(TransformData(payload))
        == [Row("a.com", "a.com", 7, 70.0), Row("b.com", "b.com", 3, 30.0)]
  {
  }
}

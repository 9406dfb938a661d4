/** The network traffic chart: thirty days of ingress and egress volumes,
    cut to a window of days that ends at a fixed reference date. Dates are
    day numbers counted from 1970-01-01. */
module TrafficChart {
  import opened Seqs

  datatype ChartPoint = ChartPoint(day: int, ingress: nat, egress: nat)

  /** 2024-04-01 and 2024-06-30 as day numbers. */
  const FirstDay := 19814
  const ReferenceDay := 19904

  const DefaultTimeRange := "90d"

  function IngressVolumes(): (v: seq<nat>)
    ensures |v| == 30
  {
    [300, 280, 350, 400, 380, 450, 420, 500, 480, 520, 490, 550, 530, 580, 560,
     600, 590, 620, 610, 650, 640, 680, 670, 700, 690, 720, 710, 740, 730, 750]
  }

  function EgressVolumes(): (v: seq<nat>)
    ensures |v| == 30
  {
    [200, 220, 180, 250, 300, 280, 320, 350, 380, 400, 420, 450, 470, 500, 520,
     540, 560, 580, 600, 620, 640, 660, 680, 700, 720, 740, 760, 780, 800, 820]
  }

  /** One point per day of April 2024, in date order. */
  function ChartData(): (data: seq<ChartPoint>)
    ensures |data| == 30
    ensures forall i :: 0 <= i < 30 ==> data[i].day == FirstDay + i
  {
    seq(30, i requires 0 <= i < 30 => ChartPoint(FirstDay + i, IngressVolumes()[i], EgressVolumes()[i]))
  }

  /** The window length for the selected range; anything unrecognised,
      including the default "90d", means ninety days. */
  function WindowDays(timeRange: string): (n: nat)
    ensures timeRange == "30d" ==> n == 30
    ensures timeRange == "7d" ==> n == 7
    ensures timeRange != "30d" && timeRange != "7d" ==> n == 90
  {
    if timeRange == "30d" then 30 else if timeRange == "7d" then 7 else 90
  }

  /** The first day a range keeps. */
  function StartDay(timeRange: string): int {
    ReferenceDay - WindowDays(timeRange)
  }

  predicate InWindow(timeRange: string, p: ChartPoint) {
    p.day >= StartDay(timeRange)
  }

  /** `filteredData`. */
  function FilteredData(data: seq<ChartPoint>, timeRange: string): seq<ChartPoint> {
    Filter(data, (p: ChartPoint) => InWindow(timeRange, p))
  }

  /** A point is kept exactly when it lies in the window, and the kept points
      keep their order. */
  lemma FilteredDataKeepsWindow(data: seq<ChartPoint>, timeRange: string)
    ensures forall i :: 0 <= i < |FilteredData(data, timeRange)| ==>
      FilteredData(data, timeRange)[i] in data && FilteredData(data, timeRange)[i].day >= StartDay(timeRange)
    ensures forall i :: 0 <= i < |data| && data[i].day >= StartDay(timeRange) ==> data[i] in FilteredData(data, timeRange)
    ensures IsSubsequence(FilteredData(data, timeRange), data)
  {
  }

  /** A narrower window keeps an order-preserving part of what a wider one
      keeps. */
  lemma NarrowerWindowIsPart(data: seq<ChartPoint>, narrow: string, wide: string)
    requires WindowDays(narrow) <= WindowDays(wide)
    ensures IsSubsequence(FilteredData(data, narrow), FilteredData(data, wide))
  {
    var p := (x: ChartPoint) => InWindow(wide, x);
    var q := (x: ChartPoint) => InWindow(narrow, x);
    FilterFilter(data, p, q, q);
  }

  /** No point before the start of the window means nothing is dropped. */
  lemma WholeDataInWindow(data: seq<ChartPoint>, timeRange: string)
    requires forall i :: 0 <= i < |data| ==> data[i].day >= StartDay(timeRange)
    ensures FilteredData(data, timeRange) == data
  {
    FilterAll(data, (p: ChartPoint) => InWindow(timeRange, p));
  }

  /** No point in the window means nothing is kept. */
  lemma NoDataInWindow(data: seq<ChartPoint>, timeRange: string)
    requires forall i :: 0 <= i < |data| ==> data[i].day < StartDay(timeRange)
    ensures FilteredData(data, timeRange) == []
  {
  }

  /** Every point falls in April 2024. */
  predicate AllInApril(data: seq<ChartPoint>) {
    forall i :: 0 <= i < |data| ==> FirstDay <= data[i].day < FirstDay + 30
  }

  lemma ChartDataInApril()
    ensures AllInApril(ChartData())
  {
  }

  /** April lies ninety days or less before the reference date and more than
      thirty days before it: the default range shows all of it and the two
      shorter ranges show none. */
  lemma AprilWindows(data: seq<ChartPoint>)
    requires AllInApril(data)
    ensures FilteredData(data, DefaultTimeRange) == data
    ensures FilteredData(data, "30d") == []
    ensures FilteredData(data, "7d") == []
  {
    assert StartDay(DefaultTimeRange) == FirstDay;
    WholeDataInWindow(data, DefaultTimeRange);
    NoDataInWindow(data, "30d");
    NoDataInWindow(data, "7d");
  }

  /** The shown data: all thirty points for the default range, none for the
      others. */
  lemma ChartDataWindows()
    ensures FilteredData(ChartData(), DefaultTimeRange) == ChartData()
    ensures FilteredData(ChartData(), "30d") == [] && FilteredData(ChartData(), "7d") == []
  {
    ChartDataInApril();
    AprilWindows(ChartData());
  }
}

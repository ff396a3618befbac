/** The tenant monitoring page: how one `/monitoring` response is turned into
    the page's state (the snapshot, a bounded history of chart points, the
    loading flags) and the pure derivations the page renders from it. */
module Monitoring {
  import opened Http
  import opened Browser

  // ---------------------------------------------------------------------
  // Data received from GET /monitoring
  // ---------------------------------------------------------------------

  datatype Summary = Summary(
    totalCpuMillicores: real,
    totalMemoryMi: real,
    totalPods: int,
    statusCounts: seq<(string, int)>,   // `Object.entries(summary.status_counts)`
    categoryCounts: seq<(string, int)>) // `Object.entries(summary.category_counts)`

  datatype PodInfo = PodInfo(name: string, podType: string, status: string, cpuMillicores: real, memoryMi: real)

  datatype DeploymentInfo = DeploymentInfo(name: string, readyReplicas: int, desiredReplicas: int)

  datatype MonitoringData = MonitoringData(summary: Summary, pods: seq<PodInfo>, deployments: seq<DeploymentInfo>)

  /** One point of the CPU/memory/pods history chart; `time` is the
      formatted wall-clock time of the fetch. */
  datatype HistoryPoint = HistoryPoint(time: string, cpu: real, memory: real, pods: int)

  // ---------------------------------------------------------------------
  // History window: `[...prev, newPoint].slice(-20)`
  // ---------------------------------------------------------------------

  const HistoryLimit: nat := 20

  /** `s.slice(-n)` for n > 0: the last n elements, or all of them. */
  function LastN<T>(s: seq<T>, n: nat): (r: seq<T>)
    ensures |r| == if |s| <= n then |s| else n
    ensures r == s[|s| - |r|..]
  {
    if |s| <= n then s else s[|s| - n..]
  }

  function AppendHistory(prev: seq<HistoryPoint>, point: HistoryPoint): (r: seq<HistoryPoint>)
    ensures 0 < |r| <= HistoryLimit
    ensures r[|r| - 1] == point
  {
    LastN(prev + [point], HistoryLimit)
  }

  /** The update is a suffix of `prev ++ [point]`: order is kept and the
      oldest points are the ones dropped; below the limit nothing is dropped. */
  lemma AppendHistoryIsSuffix(prev: seq<HistoryPoint>, point: HistoryPoint)
    ensures var r := AppendHistory(prev, point);
      |r| <= |prev| + 1 && r == (prev + [point])[|prev| + 1 - |r|..]
    ensures |prev| < HistoryLimit ==> AppendHistory(prev, point) == prev + [point]
  {
  }

  /** Once the window is full it stays full, and each update drops exactly
      the oldest point. */
  lemma FullWindowSlides(prev: seq<HistoryPoint>, point: HistoryPoint)
    requires |prev| == HistoryLimit
    ensures AppendHistory(prev, point) == prev[1..] + [point]
  {
  }

  /** The history after fetching `points` in order, starting from none. */
  function HistoryAfter(points: seq<HistoryPoint>): seq<HistoryPoint> {
    if points == [] then [] else AppendHistory(HistoryAfter(points[..|points| - 1]), points[|points| - 1])
  }

  /** However many fetches happen, the history holds exactly the most recent
      min(k, 20) points, oldest first. */
  lemma HistoryKeepsMostRecent(points: seq<HistoryPoint>)
    ensures HistoryAfter(points) == LastN(points, HistoryLimit)
    ensures |HistoryAfter(points)| == if |points| <= HistoryLimit then |points| else HistoryLimit
    ensures HistoryAfter(points) == points[|points| - |HistoryAfter(points)|..]
  {
    HistoryIsLastN(points);
  }

  /** The history after a run of fetches is `slice(-20)` of the whole run. */
  lemma {:induction false} HistoryIsLastN(points: seq<HistoryPoint>)
    ensures HistoryAfter(points) == LastN(points, HistoryLimit)
  {
    if points != [] {
      var init := points[..|points| - 1];
      var last := points[|points| - 1];
      HistoryIsLastN(init);
      assert HistoryAfter(points) == LastN(LastN(init, HistoryLimit) + [last], HistoryLimit);
      LastNAppend(init, last, HistoryLimit);
      assert init + [last] == points;
    }
  }

  lemma SliceAppend<T>(s: seq<T>, x: T, k: int)
    requires 0 <= k <= |s|
    ensures (s + [x])[k..] == s[k..] + [x]
  {
  }

  /** Trimming to the last n before appending one element and trimming again
      keeps the same elements as one trim at the end. */
  lemma LastNAppend<T>(s: seq<T>, x: T, n: nat)
    requires n > 0
    ensures LastN(LastN(s, n) + [x], n) == LastN(s + [x], n)
  {
    if |s| > n {
      var w := s[|s| - n..];
      var tail := s[|s| + 1 - n..] + [x];
      assert LastN(s, n) == w;
      assert LastN(w + [x], n) == (w + [x])[1..];
      SliceAppend(w, x, 1);
      assert w[1..] == s[|s| + 1 - n..];
      assert LastN(s + [x], n) == (s + [x])[|s| + 1 - n..];
      SliceAppend(s, x, |s| + 1 - n);
    }
  }

  function NewPoint(time: string, data: MonitoringData): (p: HistoryPoint)
    ensures p.cpu == data.summary.totalCpuMillicores && p.memory == data.summary.totalMemoryMi
    ensures p.pods == data.summary.totalPods && p.time == time
  {
    HistoryPoint(time, data.summary.totalCpuMillicores, data.summary.totalMemoryMi, data.summary.totalPods)
  }

  // ---------------------------------------------------------------------
  // Display derivations
  // ---------------------------------------------------------------------

  /** `name.length > limit ? name.substring(0, limit) + '...' : name` */
  function Truncate(name: string, limit: nat): (r: string)
    ensures |name| <= limit ==> r == name
    ensures |name| > limit ==> |r| == limit + 3 && r[..limit] == name[..limit] && r[limit..] == "..."
  {
    if |name| > limit then name[..limit] + "..." else name
  }

  const ChartNameLimit: nat := 15
  const TableNameLimit: nat := 30

  /** One bar of the per-pod resource chart. */
  datatype PodResource = PodResource(name: string, fullName: string, cpu: real, memory: real)

  function PodResourceData(pods: seq<PodInfo>): (r: seq<PodResource>)
    ensures |r| == |pods|
    ensures forall i :: 0 <= i < |pods| ==>
      r[i] == PodResource(Truncate(pods[i].name, ChartNameLimit), pods[i].name, pods[i].cpuMillicores, pods[i].memoryMi)
  {
    if pods == [] then []
    else [PodResource(Truncate(pods[0].name, ChartNameLimit), pods[0].name, pods[0].cpuMillicores, pods[0].memoryMi)]
         + PodResourceData(pods[1..])
  }

  /** A chart label is either the full name or 18 characters long. */
  lemma ChartLabelShape(pods: seq<PodInfo>, i: int)
    requires 0 <= i < |pods|
    ensures var shown := PodResourceData(pods)[i].name;
      (shown == pods[i].name && |shown| <= 15) || (|shown| == 18 && shown[..15] == pods[i].name[..15])
    ensures PodResourceData(pods)[i].fullName == pods[i].name
  {
  }

  /** The table's name column. */
  function TableName(pod: PodInfo): (r: string)
    ensures |pod.name| <= TableNameLimit ==> r == pod.name
    ensures |pod.name| > TableNameLimit ==> |r| == TableNameLimit + 3 && r[..TableNameLimit] == pod.name[..TableNameLimit]
  {
    Truncate(pod.name, TableNameLimit)
  }

  /** `s.split(sep)[0]`: the text before the first separator. */
  function BeforeFirst(s: string, sep: char): (r: string)
    ensures |r| <= |s| && r == s[..|r|]
    ensures sep !in r
    ensures |r| < |s| ==> s[|r|] == sep
  {
    if s == [] || s[0] == sep then [] else [s[0]] + BeforeFirst(s[1..], sep)
  }

  /** The type chip: `pod.type.split('-')[0]`. */
  function TypeLabel(podType: string): (r: string)
    ensures |r| <= |podType| && r == podType[..|r|] && '-' !in r
    ensures '-' !in podType ==> r == podType
  {
    BeforeFirst(podType, '-')
  }

  // ---------------------------------------------------------------------
  // Status and category charts
  // ---------------------------------------------------------------------

  const StatusChartNames: set<string> := {"Running", "Pending", "Failed", "Succeeded", "Unknown"}
  const CategoryChartNames: set<string> := {"app", "db", "cache", "monitoring", "other"}

  /** Monitoring.js's own status colour table (it has no fallback). */
  function StatusChartColor(name: string): (r: Option<string>)
    ensures r.Some? <==> name in StatusChartNames
    ensures name == "Unknown" ==> r == Some("#64748b")
  {
    if name == "Running" then Some("#22c55e")
    else if name == "Pending" then Some("#f59e0b")
    else if name == "Failed" then Some("#ef4444")
    else if name == "Succeeded" then Some("#3b82f6")
    else if name == "Unknown" then Some("#64748b")
    else None
  }

  /** Monitoring.js's category colour table (it has no fallback either). */
  function CategoryChartColor(name: string): (r: Option<string>)
    ensures r.Some? <==> name in CategoryChartNames
    ensures name == "other" ==> r == Some("#64748b")
  {
    if name == "app" then Some("#6366f1")
    else if name == "db" then Some("#8b5cf6")
    else if name == "cache" then Some("#06b6d4")
    else if name == "monitoring" then Some("#ec4899")
    else if name == "other" then Some("#64748b")
    else None
  }

  /** Each table gives its known names pairwise different colours, so no
      two slices or bars of one chart look alike. */
  lemma ChartColorsDistinct(a: string, b: string)
    ensures a in StatusChartNames && b in StatusChartNames && a != b ==> StatusChartColor(a) != StatusChartColor(b)
    ensures a in CategoryChartNames && b in CategoryChartNames && a != b ==> CategoryChartColor(a) != CategoryChartColor(b)
  {
  }

  datatype Slice = Slice(name: string, value: int, color: Option<string>)

  /** `name.charAt(0).toUpperCase() + name.slice(1)` with ASCII case. */
  function Capitalize(name: string): (r: string)
    ensures |r| == |name| && (name != [] ==> r[1..] == name[1..])
    ensures name != [] && 'a' <= name[0] <= 'z' ==> r[0] as int == name[0] as int - 32
    ensures name != [] && !('a' <= name[0] <= 'z') ==> r[0] == name[0]
  {
    if name == [] then []
    else [if 'a' <= name[0] <= 'z' then (name[0] as int - 32) as char else name[0]] + name[1..]
  }

  /** The status pie: entries with a positive count, labelled by status. */
  function StatusData(entries: seq<(string, int)>): (r: seq<Slice>)
    ensures |r| <= |entries|
    ensures forall i :: 0 <= i < |r| ==> r[i].value > 0
  {
    if entries == [] then []
    else (if entries[0].1 > 0 then [Slice(entries[0].0, entries[0].1, StatusChartColor(entries[0].0))] else [])
         + StatusData(entries[1..])
  }

  /** The category bars: entries with a positive count, the label capitalised
      and the colour looked up by the original name. */
  function CategoryData(entries: seq<(string, int)>): (r: seq<Slice>)
    ensures |r| <= |entries|
    ensures forall i :: 0 <= i < |r| ==> r[i].value > 0
  {
    if entries == [] then []
    else (if entries[0].1 > 0 then [Slice(Capitalize(entries[0].0), entries[0].1, CategoryChartColor(entries[0].0))] else [])
         + CategoryData(entries[1..])
  }

  /** Filtering distributes over concatenation: the chart keeps the entries'
      order, each entry contributing on its own. */
  lemma {:induction false} StatusDataAppend(a: seq<(string, int)>, b: seq<(string, int)>)
    ensures StatusData(a + b) == StatusData(a) + StatusData(b)
  {
    if a == [] {
      assert a + b == b;
    } else {
      assert (a + b)[1..] == a[1..] + b;
      StatusDataAppend(a[1..], b);
    }
  }

  lemma {:induction false} CategoryDataAppend(a: seq<(string, int)>, b: seq<(string, int)>)
    ensures CategoryData(a + b) == CategoryData(a) + CategoryData(b)
  {
    if a == [] {
      assert a + b == b;
    } else {
      assert (a + b)[1..] == a[1..] + b;
      CategoryDataAppend(a[1..], b);
    }
  }

  /** An entry appears in the status chart exactly when its count is
      positive; nothing else appears. */
  lemma {:induction false} StatusDataExact(entries: seq<(string, int)>, name: string, value: int)
    ensures Slice(name, value, StatusChartColor(name)) in StatusData(entries)
        <==> (name, value) in entries && value > 0
  {
    if entries != [] {
      StatusDataExact(entries[1..], name, value);
      assert entries == [entries[0]] + entries[1..];
    }
  }

  /** Every category bar comes from a positive entry, with its label
      capitalised, and every positive entry gets its bar. */
  lemma {:induction false} CategoryDataExact(entries: seq<(string, int)>, name: string, value: int)
    requires (name, value) in entries && value > 0
    ensures Slice(Capitalize(name), value, CategoryChartColor(name)) in CategoryData(entries)
  {
    if entries[0] != (name, value) {
      CategoryDataExact(entries[1..], name, value);
    }
  }

  lemma {:induction false} CategoryDataSound(entries: seq<(string, int)>, s: Slice)
    requires s in CategoryData(entries)
    ensures exists e :: e in entries && e.1 > 0 && s == Slice(Capitalize(e.0), e.1, CategoryChartColor(e.0))
  {
    if entries[0].1 > 0 && s == Slice(Capitalize(entries[0].0), entries[0].1, CategoryChartColor(entries[0].0)) {
      assert entries[0] in entries;
    } else {
      CategoryDataSound(entries[1..], s);
      var e :| e in entries[1..] && e.1 > 0 && s == Slice(Capitalize(e.0), e.1, CategoryChartColor(e.0));
      assert e in entries;
    }
  }

  // ---------------------------------------------------------------------
  // Replica chip
  // ---------------------------------------------------------------------

  datatype ChipColor = SuccessChip | WarningChip

  function ReplicaChip(d: DeploymentInfo): (c: ChipColor)
    ensures c == SuccessChip <==> d.readyReplicas == d.desiredReplicas
    ensures c == WarningChip <==> d.readyReplicas != d.desiredReplicas
  {
    if d.readyReplicas == d.desiredReplicas then SuccessChip else WarningChip
  }

  // ---------------------------------------------------------------------
  // fetchMonitoringData
  // ---------------------------------------------------------------------

  class MonitoringPage {
    var monitoringData: Option<MonitoringData>
    var loading: bool
    var refreshing: bool
    var historicalData: seq<HistoryPoint>

    ghost predicate Valid()
      reads this
    {
      |historicalData| <= HistoryLimit
    }

    constructor ()
      ensures Valid()
      ensures monitoringData == None && loading && !refreshing && historicalData == []
    {
      monitoringData := None;
      loading := true;
      refreshing := false;
      historicalData := [];
    }

    /** `fetchMonitoringData(showRefresh)` with `outcome` the result of the
        GET and `time` the formatted time of the new point. */
    method FetchMonitoringData(b: Browser, showRefresh: bool, outcome: Outcome<MonitoringData>, time: string)
      requires Valid()
      modifies this, b
      ensures Valid()
      ensures b.requests == old(b.requests) + [Request(GET, MonitoringEndpoint, NoBody, Some(BearerHeader(old(b.GetItem("token")))))]
      ensures b.storage == old(b.storage) && b.alerts == old(b.alerts)
      ensures outcome.Ok? ==> (monitoringData == Some(outcome.data)
        && historicalData == AppendHistory(old(historicalData), NewPoint(time, outcome.data))
        && b.history == old(b.history))
      ensures outcome.Failed? ==> monitoringData == old(monitoringData) && historicalData == old(historicalData)
      ensures outcome.Failed? && HasStatus(outcome.error, 401) ==> b.history == old(b.history) + ["/"]
      ensures outcome.Failed? && !HasStatus(outcome.error, 401) ==> b.history == old(b.history)
      ensures !loading && !refreshing
    {
      if showRefresh {
        refreshing := true;
      }
      var token := b.GetItem("token");
      b.Send(Request(GET, MonitoringEndpoint, NoBody, Some(BearerHeader(token))));
      match outcome {
        case Ok(data) =>
          monitoringData := Some(data);
          historicalData := AppendHistory(historicalData, NewPoint(time, data));
        case Failed(e) =>
          if HasStatus(e, 401) {
            b.Navigate("/");
          }
      }
      loading := false;
      refreshing := false;
    }

    /** The table's empty-state row. */
    predicate ShowsNoPods()
      reads this
    {
      monitoringData.None? || monitoringData.value.pods == []
    }
  }
}

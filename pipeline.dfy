/** The pipeline management page: a fixed table of pipelines, each with a
    status badge and a short text for its list of destinations. */
module Pipeline {
  import opened Text

  datatype PipelineRow = PipelineRow(
    name: string, source: string, destinations: seq<string>, status: string, lastUpdated: string)

  function PipelineData(): (rows: seq<PipelineRow>)
    ensures |rows| == 6
  {
    [ PipelineRow("Web Server " + "Analytics Pipeline", "Apache Web Servers", ["Splunk SIEM", "DataLake S3"], "active", "2 minutes ago"),
      PipelineRow("Security Events Pipeline", "Windows Domain " + "Controllers", ["QRadar", "Elastic Security"], "active", "5 minutes ago"),
      PipelineRow("Network Infrastructure " + "Pipeline", "Cisco Network Switches", ["Splunk Infrastructure"], "error", "2 hours ago"),
      PipelineRow("Application Logs Pipeline", "Kubernetes Clusters", ["Grafana Loki", "CloudWatch"], "active", "1 minute ago"),
      PipelineRow("Database Audit Pipeline", "MySQL Database Servers", ["Compliance Archive"], "deactivated", "3 days ago"),
      PipelineRow("Cloud Services Pipeline", "AWS CloudTrail", ["Security Analytics", "Cost Management"], "active", "30 seconds ago") ]
  }

  // ---------------------------------------------------------------------------
  // Status badges

  datatype Icon = CheckCircle | AlertTriangle | XCircle

  datatype PipelineBadge = PipelineBadge(text: string, icon: Icon, color: string)

  /** `getStatusBadge`: three known statuses, each with its own caption, icon
      and colour; any other status gives no badge. */
  function StatusBadge(status: string): (b: Option<PipelineBadge>)
    ensures status == "active" ==> b == Some(PipelineBadge("Active", CheckCircle, "green"))
    ensures status == "error" ==> b == Some(PipelineBadge("Error", AlertTriangle, "red"))
    ensures status == "deactivated" ==> b == Some(PipelineBadge("Deactivated", XCircle, "slate"))
    ensures b.Some? <==> status in ["active", "error", "deactivated"]
  {
    if status == "active" then Some(PipelineBadge("Active", CheckCircle, "green"))
    else if status == "error" then Some(PipelineBadge("Error", AlertTriangle, "red"))
    else if status == "deactivated" then Some(PipelineBadge("Deactivated", XCircle, "slate"))
    else None
  }

  /** Every pipeline of the table shows a badge. */
  lemma EveryPipelineHasBadge()
    ensures forall i :: 0 <= i < |PipelineData()| ==> StatusBadge(PipelineData()[i].status).Some?
  {
    var rows := PipelineData();
    assert rows[0].status == "active" && rows[1].status == "active" && rows[2].status == "error";
    assert rows[3].status == "active" && rows[4].status == "deactivated" && rows[5].status == "active";
  }

  // ---------------------------------------------------------------------------
  // The destinations column

  /** `formatDestinations`. One destination is shown as it is, two joined by
      ", ", and any other number as the first one and a count of the rest.
      An empty list takes that last branch: the missing first element
      interpolates as "undefined" and the count as -1. */
  function FormatDestinations(destinations: seq<string>): (r: string)
    ensures |destinations| == 1 ==> r == destinations[0]
    ensures |destinations| == 2 ==> r == destinations[0] + ", " + destinations[1]
    ensures |destinations| >= 1 ==> StartsWith(r, destinations[0])
  {
    if |destinations| == 1 then destinations[0]
    else if |destinations| == 2 then
      assert destinations[1..][1..] == [];
      Join(destinations, ", ")
    else
      var first := if destinations == [] then "undefined" else destinations[0];
      var r := first + ", +" + IntToString(|destinations| - 1) + " more";
      assert r[..|first|] == first;
      r
  }

  /** Three or more destinations give the first one and the number of the
      others. */
  lemma FormatMany(destinations: seq<string>)
    requires |destinations| >= 3
    ensures FormatDestinations(destinations) == destinations[0] + ", +" + NatToString(|destinations| - 1) + " more"
  {
  }

  /** From three destinations on, only the first one and the number matter. */
  lemma FormatManyDependsOnFirstAndLength(a: seq<string>, b: seq<string>)
    requires |a| == |b| >= 3 && a[0] == b[0]
    ensures FormatDestinations(a) == FormatDestinations(b)
  {
  }

  /** The empty list reads a first element that does not exist. */
  lemma FormatEmpty()
    ensures FormatDestinations([]) == "undefined" + ", +" + "-1" + " more"
  {
    assert NatToString(1) == "1";
  }

  /** With one or two destinations every destination is shown. */
  lemma FormatShowsAllOfShortList(destinations: seq<string>, k: nat)
    requires 1 <= |destinations| <= 2 && k < |destinations|
    ensures Contains(FormatDestinations(destinations), destinations[k])
  {
    JoinContainsPart(destinations, ", ", k);
    if |destinations| == 2 {
      assert destinations[1..][1..] == [];
    }
  }

  /** Every pipeline of the table has one or two destinations, so the column
      shows all of them. */
  lemma TableShowsAllDestinations(i: nat, k: nat)
    requires i < |PipelineData()| && k < |PipelineData()[i].destinations|
    ensures Contains(FormatDestinations(PipelineData()[i].destinations), PipelineData()[i].destinations[k])
  {
    FormatShowsAllOfShortList(PipelineData()[i].destinations, k);
  }
}

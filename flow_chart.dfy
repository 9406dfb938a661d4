/** The data-flow chart of the overview page: a fixed catalogue of log sources
    and SIEM destinations joined by direct source-to-destination edges, a
    collapse/expand rule for the sources, the row layout, hover highlighting,
    and a viewport (zoom and pan) driven by wheel and mouse events.

    Zoom is kept in integer tenths (10 is 100%); client coordinates are
    integers; layout coordinates are reals. */
module FlowChart {
  import opened Text
  import opened Seqs

  datatype FlowNode = FlowNode(id: string, name: string, volume: string)

  datatype Connection = Connection(source: string, destination: string)

  datatype Position = Position(x: real, y: real)

  const InitialSourcesLimit: nat := 4
  const MinZoomTenths: int := 5
  const MaxZoomTenths: int := 20
  const DefaultZoomTenths: int := 10
  const ContainerWidth: real := 700.0
  const ContainerHeight: real := 650.0
  const NodeHeight: real := 60.0

  /** The source catalogue, in display order; it is spelled out in groups of
      four, the first group being the sources shown while collapsed. */
  function AllSources(): (all: seq<FlowNode>)
    ensures |all| == 28 && all[..4] == LeadingSources()
  {
    var all := LeadingSources() + SourceGroup2() + SourceGroup3() + SourceGroup4()
      + SourceGroup5() + SourceGroup6() + SourceGroup7();
    assert all[..4] == LeadingSources();
    all
  }

  function LeadingSources(): (g: seq<FlowNode>)
    ensures |g| == 4
  {
    [ FlowNode("windows", "Microsoft Windows " + "Event Logs", "12.3 GB/day"),
      FlowNode("linux", "Red Hat Enterprise " + "Linux Syslogs", "10.8 GB/day"),
      FlowNode("aws", "Amazon Web Services " + "CloudTrail", "15.2 GB/day"),
      FlowNode("entra", "Microsoft Entra " + "ID (Azure AD)", "8.7 GB/day") ]
  }

  function SourceGroup2(): (g: seq<FlowNode>)
    ensures |g| == 4
  {
    [ FlowNode("firewall", "Palo Alto " + "Networks Firewall", "14.6 GB/day"),
      FlowNode("nginx", "Nginx Web Server " + "Access Logs", "9.2 GB/day"),
      FlowNode("docker", "Docker Container " + "Runtime Logs", "6.8 GB/day"),
      FlowNode("apache", "Apache HTTP Server " + "Access Logs", "11.4 GB/day") ]
  }

  function SourceGroup3(): (g: seq<FlowNode>)
    ensures |g| == 4
  {
    [ FlowNode("kubernetes", "Kubernetes " + "Cluster Event Logs", "18.9 GB/day"),
      FlowNode("mysql", "MySQL Database " + "Server Logs", "5.3 GB/day"),
      FlowNode("postgresql", "PostgreSQL Database Logs", "4.7 GB/day"),
      FlowNode("redis", "Redis Cache Server Logs", "3.2 GB/day") ]
  }

  function SourceGroup4(): (g: seq<FlowNode>)
    ensures |g| == 4
  {
    [ FlowNode("jenkins", "Jenkins CI/CD " + "Pipeline Logs", "7.8 GB/day"),
      FlowNode("gitlab", "GitLab Application Logs", "6.1 GB/day"),
      FlowNode("elasticsearch", "Elasticsearch " + "Cluster Logs", "13.4 GB/day"),
      FlowNode("mongodb", "MongoDB Database Logs", "8.9 GB/day") ]
  }

  function SourceGroup5(): (g: seq<FlowNode>)
    ensures |g| == 4
  {
    [ FlowNode("tomcat", "Apache Tomcat " + "Application Server", "9.7 GB/day"),
      FlowNode("iis", "Microsoft IIS Web Server", "11.2 GB/day"),
      FlowNode("rabbitmq", "RabbitMQ Message Broker", "4.5 GB/day"),
      FlowNode("kafka", "Apache Kafka " + "Streaming Logs", "16.3 GB/day") ]
  }

  function SourceGroup6(): (g: seq<FlowNode>)
    ensures |g| == 4
  {
    [ FlowNode("haproxy", "HAProxy Load Balancer", "7.6 GB/day"),
      FlowNode("vsphere", "VMware vSphere " + "Infrastructure", "12.8 GB/day"),
      FlowNode("office365", "Microsoft " + "Office 365 Logs", "14.1 GB/day"),
      FlowNode("salesforce", "Salesforce Platform Logs", "6.4 GB/day") ]
  }

  function SourceGroup7(): (g: seq<FlowNode>)
    ensures |g| == 4
  {
    [ FlowNode("okta", "Okta Identity Management", "5.8 GB/day"),
      FlowNode("crowdstrike", "CrowdStrike " + "Endpoint Protection", "9.3 GB/day"),
      FlowNode("fortinet", "Fortinet " + "FortiGate Firewall", "13.7 GB/day"),
      FlowNode("checkpoint", "Check Point " + "Security Gateway", "10.5 GB/day") ]
  }

  function Destinations(): seq<FlowNode> {
    [ FlowNode("splunk", "Splunk", "Active"),
      FlowNode("datadog", "Datadog", "Active"),
      FlowNode("elastic", "Elastic", "Active"),
      FlowNode("sentinel", "Sentinel", "Active") ]
  }

  /** The source-to-destination edges, spelled out in four groups. */
  function AllConnections(): (conns: seq<Connection>)
    ensures |conns| == 43
  {
    ConnectionGroup1() + ConnectionGroup2() + ConnectionGroup3() + ConnectionGroup4()
  }

  function ConnectionGroup1(): (g: seq<Connection>)
    ensures |g| == 11
  {
    [ Connection("windows", "splunk"), Connection("windows", "sentinel"), Connection("linux", "datadog"),
      Connection("linux", "elastic"), Connection("aws", "splunk"), Connection("aws", "datadog"),
      Connection("aws", "sentinel"), Connection("entra", "sentinel"), Connection("entra", "elastic"),
      Connection("firewall", "splunk"), Connection("firewall", "elastic") ]
  }

  function ConnectionGroup2(): (g: seq<Connection>)
    ensures |g| == 11
  {
    [ Connection("nginx", "datadog"), Connection("docker", "elastic"), Connection("apache", "splunk"),
      Connection("kubernetes", "datadog"), Connection("kubernetes", "elastic"), Connection("mysql", "splunk"),
      Connection("postgresql", "datadog"), Connection("postgresql", "elastic"), Connection("redis", "elastic"),
      Connection("jenkins", "splunk"), Connection("jenkins", "datadog") ]
  }

  function ConnectionGroup3(): (g: seq<Connection>)
    ensures |g| == 11
  {
    [ Connection("gitlab", "datadog"), Connection("elasticsearch", "elastic"), Connection("mongodb", "splunk"),
      Connection("mongodb", "datadog"), Connection("tomcat", "splunk"), Connection("iis", "sentinel"),
      Connection("rabbitmq", "datadog"), Connection("kafka", "elastic"), Connection("kafka", "splunk"),
      Connection("haproxy", "datadog"), Connection("vsphere", "splunk") ]
  }

  function ConnectionGroup4(): (g: seq<Connection>)
    ensures |g| == 10
  {
    [ Connection("vsphere", "sentinel"), Connection("office365", "sentinel"), Connection("salesforce", "splunk"),
      Connection("okta", "sentinel"), Connection("crowdstrike", "splunk"), Connection("crowdstrike", "sentinel"),
      Connection("fortinet", "splunk"), Connection("fortinet", "elastic"), Connection("checkpoint", "splunk"),
      Connection("checkpoint", "sentinel") ]
  }

  // ---------------------------------------------------------------------------
  // Disclosure: which sources and which connections are shown

  function MinNat(a: nat, b: nat): nat {
    if a <= b then a else b
  }

  /** `showAllSources ? allSources : allSources.slice(0, 4)` */
  function VisibleSources(all: seq<FlowNode>, showAll: bool): (r: seq<FlowNode>)
    ensures showAll ==> r == all
    ensures !showAll ==> |r| == MinNat(|all|, InitialSourcesLimit)
    ensures r == all[..|r|]
  {
    if showAll then all else all[..MinNat(|all|, InitialSourcesLimit)]
  }

  /** `allSources.length - 4`: negative when there are fewer than four sources. */
  function HiddenSourcesCount(all: seq<FlowNode>): int {
    |all| - InitialSourcesLimit
  }

  /** The expand node is rendered only while some source lies beyond the limit. */
  predicate ExpandNodeShown(all: seq<FlowNode>) {
    HiddenSourcesCount(all) > 0
  }

  /** Some node of `nodes` has this id (`nodes.some(n => n.id === id)`). */
  predicate HasId(nodes: seq<FlowNode>, id: string) {
    exists i :: 0 <= i < |nodes| && nodes[i].id == id
  }

  /** `showAllSources ? allConnections : allConnections.filter(...)` */
  function VisibleConnections(all: seq<FlowNode>, conns: seq<Connection>, showAll: bool): (r: seq<Connection>)
  {
    if showAll then conns
    else
      var shown := VisibleSources(all, false);
      Filter(conns, (c: Connection) => HasId(shown, c.source))
  }

  /** Collapsed or expanded, the visible connections keep the catalogue's
      order, and a connection is visible exactly when its source is a visible
      source, provided every connection's source is in the catalogue. */
  lemma VisibleConnectionsExact(all: seq<FlowNode>, conns: seq<Connection>, showAll: bool)
    requires forall c :: c in conns ==> HasId(all, c.source)
    ensures IsSubsequence(VisibleConnections(all, conns, showAll), conns)
    ensures forall c :: c in VisibleConnections(all, conns, showAll) <==>
              c in conns && HasId(VisibleSources(all, showAll), c.source)
    ensures showAll ==> VisibleConnections(all, conns, showAll) == conns
  {
    if showAll {
      SubsequenceRefl(conns);
    } else {
      var shown := VisibleSources(all, false);
      var r := Filter(conns, (c: Connection) => HasId(shown, c.source));
      forall c ensures c in r <==> c in conns && HasId(shown, c.source) {
        if c in r {
          var i :| 0 <= i < |r| && r[i] == c;
        }
        if c in conns && HasId(shown, c.source) {
          var i :| 0 <= i < |conns| && conns[i] == c;
        }
      }
    }
  }

  /** The shown catalogue has 28 sources, 4 destinations and 43 connections,
      so 24 sources start out hidden behind the expand node. */
  lemma CatalogueSizes()
    ensures |AllSources()| == 28 && |Destinations()| == 4 && |AllConnections()| == 43
    ensures HiddenSourcesCount(AllSources()) == 24 && ExpandNodeShown(AllSources())
  {
  }

  /** The ids of `nodes`, in order. */
  function NodeIds(nodes: seq<FlowNode>): (ids: seq<string>)
    ensures |ids| == |nodes| && forall i :: 0 <= i < |nodes| ==> ids[i] == nodes[i].id
  {
    if nodes == [] then [] else [nodes[0].id] + NodeIds(nodes[1..])
  }

  lemma {:induction false} NodeIdsAppend(a: seq<FlowNode>, b: seq<FlowNode>)
    ensures NodeIds(a + b) == NodeIds(a) + NodeIds(b)
  {
    assert NodeIds(a + b) == NodeIds(a) + NodeIds(b);
  }

  lemma InNodeIds(nodes: seq<FlowNode>, id: string)
    requires id in NodeIds(nodes)
    ensures HasId(nodes, id)
  {
    var i :| 0 <= i < |NodeIds(nodes)| && NodeIds(nodes)[i] == id;
    assert nodes[i].id == id;
  }

  /** The catalogue's ids, group by group. */
  function SourceIdList(): seq<string> {
    ["windows", "linux", "aws", "entra"] + ["firewall", "nginx", "docker", "apache"]
    + ["kubernetes", "mysql", "postgresql", "redis"] + ["jenkins", "gitlab", "elasticsearch", "mongodb"]
    + ["tomcat", "iis", "rabbitmq", "kafka"] + ["haproxy", "vsphere", "office365", "salesforce"]
    + ["okta", "crowdstrike", "fortinet", "checkpoint"]
  }

  lemma FourIds(g: seq<FlowNode>)
    requires |g| == 4
    ensures NodeIds(g) == [g[0].id, g[1].id, g[2].id, g[3].id]
  {
  }

  lemma LeadingGroupIds()
    ensures NodeIds(LeadingSources()) == ["windows", "linux", "aws", "entra"]
    ensures NodeIds(SourceGroup2()) == ["firewall", "nginx", "docker", "apache"]
    ensures NodeIds(SourceGroup3()) == ["kubernetes", "mysql", "postgresql", "redis"]
  {
    FourIds(LeadingSources());
    FourIds(SourceGroup2());
    FourIds(SourceGroup3());
  }

  lemma TrailingGroupIds()
    ensures NodeIds(SourceGroup4()) == ["jenkins", "gitlab", "elasticsearch", "mongodb"]
    ensures NodeIds(SourceGroup5()) == ["tomcat", "iis", "rabbitmq", "kafka"]
    ensures NodeIds(SourceGroup6()) == ["haproxy", "vsphere", "office365", "salesforce"]
    ensures NodeIds(SourceGroup7()) == ["okta", "crowdstrike", "fortinet", "checkpoint"]
  {
    FourIds(SourceGroup4());
    FourIds(SourceGroup5());
    FourIds(SourceGroup6());
    FourIds(SourceGroup7());
  }

  lemma SourceIdListIsIds()
    ensures NodeIds(AllSources()) == SourceIdList()
  {
    var g1, g2, g3, g4 := LeadingSources(), SourceGroup2(), SourceGroup3(), SourceGroup4();
    var g5, g6, g7 := SourceGroup5(), SourceGroup6(), SourceGroup7();
    NodeIdsAppend(g1, g2);
    NodeIdsAppend(g1 + g2, g3);
    NodeIdsAppend(g1 + g2 + g3, g4);
    NodeIdsAppend(g1 + g2 + g3 + g4, g5);
    NodeIdsAppend(g1 + g2 + g3 + g4 + g5, g6);
    NodeIdsAppend(g1 + g2 + g3 + g4 + g5 + g6, g7);
    LeadingGroupIds();
    TrailingGroupIds();
  }

  predicate SourcesListed(conns: seq<Connection>) {
    forall i :: 0 <= i < |conns| ==> conns[i].source in SourceIdList()
  }

  lemma GroupsListed()
    ensures SourcesListed(ConnectionGroup1()) && SourcesListed(ConnectionGroup2())
    ensures SourcesListed(ConnectionGroup3()) && SourcesListed(ConnectionGroup4())
  {
  }

  /** Every edge of the chart starts at a source of the catalogue. */
  lemma ConnectionSourcesKnown()
    ensures forall c :: c in AllConnections() ==> HasId(AllSources(), c.source)
  {
    SourceIdListIsIds();
    GroupsListed();
    var conns := AllConnections();
    assert SourcesListed(conns);
    forall c | c in conns ensures HasId(AllSources(), c.source) {
      InNodeIds(AllSources(), c.source);
    }
  }

  /** For the chart as shown, collapsed or expanded: the visible edges keep
      their order and are exactly the edges whose source is visible. */
  lemma ChartVisibleConnections(showAll: bool)
    ensures IsSubsequence(VisibleConnections(AllSources(), AllConnections(), showAll), AllConnections())
    ensures forall c :: c in VisibleConnections(AllSources(), AllConnections(), showAll) <==>
              c in AllConnections() && HasId(VisibleSources(AllSources(), showAll), c.source)
  {
    ConnectionSourcesKnown();
    VisibleConnectionsExact(AllSources(), AllConnections(), showAll);
  }

  // ---------------------------------------------------------------------------
  // Layout

  function MinReal(a: real, b: real): real {
    if a <= b then a else b
  }

  function MaxReal(a: real, b: real): real {
    if a >= b then a else b
  }

  /** `Math.min(90, Math.max(50, 550 / count))`; with no rows the division
      yields Infinity and the spacing is 90. */
  function NodeSpacing(count: nat): (r: real)
    ensures 50.0 <= r <= 90.0
  {
    if count == 0 then 90.0 else MinReal(90.0, MaxReal(50.0, (ContainerHeight - 100.0) / count as real))
  }

  /** The top row's y: the rows are centred vertically, but never above 20. */
  function StartY(count: nat): (r: real)
    ensures r >= 20.0
  {
    MaxReal(20.0, (ContainerHeight - count as real * NodeSpacing(count)) / 2.0)
  }

  /** `findIndex` by id: -1 when no node has the id. */
  function FindIndex(nodes: seq<FlowNode>, id: string): (r: int)
    ensures -1 <= r < |nodes|
    ensures r == -1 <==> !HasId(nodes, id)
    ensures r >= 0 ==> nodes[r].id == id && forall j :: 0 <= j < r ==> nodes[j].id != id
  {
    if nodes == [] then -1
    else if nodes[0].id == id then 0
    else
      var k := FindIndex(nodes[1..], id);
      assert forall j :: 1 <= j < |nodes| ==> nodes[j] == nodes[1..][j - 1];
      assert HasId(nodes[1..], id) ==> HasId(nodes, id);
      if k == -1 then -1 else k + 1
  }

  /** The y of the row with this index in a column of `count` rows. */
  function RowY(count: nat, index: int): real {
    StartY(count) + index as real * NodeSpacing(count)
  }

  lemma RowStep(count: nat, index: int)
    ensures RowY(count, index + 1) == RowY(count, index) + NodeSpacing(count)
  {
  }

  /** Number of rows in the source column: the sources shown plus the expand
      node, which counts only while collapsed. */
  function SourceRowCount(all: seq<FlowNode>, showAll: bool): nat {
    |VisibleSources(all, showAll)| + (if ExpandNodeShown(all) && !showAll then 1 else 0)
  }

  /** `getNodePosition(id, 'source', isExpandNode)`: the expand node takes the
      row just past the shown sources; an unknown id gets index -1. */
  function SourcePosition(all: seq<FlowNode>, showAll: bool, id: string, isExpandNode: bool): (p: Position)
  {
    var visible := VisibleSources(all, showAll);
    var index := if isExpandNode then |visible| else FindIndex(visible, id);
    Position(80.0, RowY(SourceRowCount(all, showAll), index))
  }

  /** `getNodePosition(id, 'destination')`: x is the container width minus 220. */
  function DestinationPosition(dests: seq<FlowNode>, id: string): (p: Position)
  {
    Position(ContainerWidth - 220.0, RowY(|dests|, FindIndex(dests, id)))
  }

  /** Sources sit in the column x = 80 and destinations in the column x = 480
      whatever the disclosure state; the source column's row spacing stays
      within [50, 90] and its top row is at y >= 20. */
  lemma LayoutColumns(all: seq<FlowNode>, dests: seq<FlowNode>, showAll: bool, id: string, isExpandNode: bool)
    ensures SourcePosition(all, showAll, id, isExpandNode).x == 80.0
    ensures DestinationPosition(dests, id).x == 480.0
    ensures 50.0 <= NodeSpacing(SourceRowCount(all, showAll)) <= 90.0
    ensures StartY(SourceRowCount(all, showAll)) >= 20.0
  {
  }

  predicate NoDuplicateIds(nodes: seq<FlowNode>) {
    forall i, j :: 0 <= i < j < |nodes| ==> nodes[i].id != nodes[j].id
  }

  lemma FindIndexOfUnique(nodes: seq<FlowNode>, k: nat)
    requires k < |nodes| && NoDuplicateIds(nodes)
    ensures FindIndex(nodes, nodes[k].id) == k
  {
    assert HasId(nodes, nodes[k].id);
  }

  lemma VisibleSourcesUnique(all: seq<FlowNode>, showAll: bool)
    requires NoDuplicateIds(all)
    ensures NoDuplicateIds(VisibleSources(all, showAll))
  {
    var v := VisibleSources(all, showAll);
    forall i, j | 0 <= i < j < |v| ensures v[i].id != v[j].id {
      assert v[i] == all[i] && v[j] == all[j];
    }
  }

  /** With distinct ids, the k-th shown source is in row k: consecutive
      sources lie exactly one spacing apart. */
  lemma SourceRowsEvenlySpaced(all: seq<FlowNode>, showAll: bool, k: nat)
    requires NoDuplicateIds(all) && k + 1 < |VisibleSources(all, showAll)|
    ensures var v := VisibleSources(all, showAll);
            SourcePosition(all, showAll, v[k + 1].id, false).y
            == SourcePosition(all, showAll, v[k].id, false).y + NodeSpacing(SourceRowCount(all, showAll))
  {
    var v := VisibleSources(all, showAll);
    VisibleSourcesUnique(all, showAll);
    FindIndexOfUnique(v, k);
    FindIndexOfUnique(v, k + 1);
    RowStep(SourceRowCount(all, showAll), k);
  }

  /** The expand node sits one row below the last shown source. */
  lemma ExpandNodeBelowSources(all: seq<FlowNode>, showAll: bool)
    requires NoDuplicateIds(all) && |VisibleSources(all, showAll)| > 0
    ensures var v := VisibleSources(all, showAll);
            SourcePosition(all, showAll, "expand", true).y
            == SourcePosition(all, showAll, v[|v| - 1].id, false).y + NodeSpacing(SourceRowCount(all, showAll))
  {
    var v := VisibleSources(all, showAll);
    VisibleSourcesUnique(all, showAll);
    FindIndexOfUnique(v, |v| - 1);
    RowStep(SourceRowCount(all, showAll), |v| - 1);
  }

  /** A column of five rows is spaced 90 apart from y = 100, and one of 28
      rows 50 apart from y = 20. */
  lemma FiveAndTwentyEightRows()
    ensures NodeSpacing(5) == 90.0 && StartY(5) == 100.0
    ensures NodeSpacing(28) == 50.0 && StartY(28) == 20.0
  {
    DivAtLeast(550.0, 5.0, 90.0);
    DivAtMost(550.0, 28.0, 50.0);
  }

  /** Any catalogue of 28 sources: collapsed, five source rows (four sources
      and the expand node), the expand node at y = 460; expanded, 28 rows. */
  lemma CollapsedColumnOf28(all: seq<FlowNode>)
    requires |all| == 28
    ensures SourceRowCount(all, false) == 5
    ensures SourcePosition(all, false, "expand", true) == Position(80.0, 460.0)
    ensures SourceRowCount(all, true) == 28
  {
    FiveAndTwentyEightRows();
  }

  /** Collapsed, the shown catalogue has five source rows spaced 90 apart
      from y = 100, so the expand node is at y = 460; expanded, its 28 rows
      are spaced 50 apart from y = 20. */
  lemma ShownCatalogueRows()
    ensures SourceRowCount(AllSources(), false) == 5
    ensures NodeSpacing(5) == 90.0 && StartY(5) == 100.0
    ensures SourcePosition(AllSources(), false, "expand", true) == Position(80.0, 460.0)
    ensures SourceRowCount(AllSources(), true) == 28
    ensures NodeSpacing(28) == 50.0 && StartY(28) == 20.0
  {
    CatalogueSizes();
    CollapsedColumnOf28(AllSources());
    FiveAndTwentyEightRows();
  }

  /** Collapsed, the k-th of the first four distinct sources of a 28-source
      catalogue is at y = 100 + 90 k. */
  lemma CollapsedSourceRow(all: seq<FlowNode>, k: nat)
    requires |all| == 28 && k < 4 && NoDuplicateIds(all[..4])
    ensures SourcePosition(all, false, all[k].id, false) == Position(80.0, 100.0 + 90.0 * k as real)
  {
    var v := VisibleSources(all, false);
    assert v == all[..4];
    FindIndexOfUnique(v, k);
    CollapsedColumnOf28(all);
    FiveAndTwentyEightRows();
  }

  lemma LeadingSourceIds()
    ensures LeadingSources()[0].id == "windows" && LeadingSources()[1].id == "linux"
    ensures LeadingSources()[2].id == "aws" && LeadingSources()[3].id == "entra"
    ensures NoDuplicateIds(LeadingSources())
  {
    var v := LeadingSources();
    assert v[0].id[0] == 'w' && v[1].id[0] == 'l' && v[2].id[0] == 'a' && v[3].id[0] == 'e';
  }

  /** The four initially shown sources of the catalogue are at y = 100, 190,
      280 and 370. */
  lemma ShownCatalogueSourcePositions()
    ensures SourcePosition(AllSources(), false, "windows", false) == Position(80.0, 100.0)
    ensures SourcePosition(AllSources(), false, "linux", false) == Position(80.0, 190.0)
    ensures SourcePosition(AllSources(), false, "aws", false) == Position(80.0, 280.0)
    ensures SourcePosition(AllSources(), false, "entra", false) == Position(80.0, 370.0)
  {
    LeadingSourceIds();
    CollapsedSourceRow(AllSources(), 0);
    CollapsedSourceRow(AllSources(), 1);
    CollapsedSourceRow(AllSources(), 2);
    CollapsedSourceRow(AllSources(), 3);
  }

  /** In a column of four distinct destinations the k-th is at
      y = 145 + 90 k. */
  lemma DestinationRow(dests: seq<FlowNode>, k: nat)
    requires |dests| == 4 && k < 4 && NoDuplicateIds(dests)
    ensures DestinationPosition(dests, dests[k].id) == Position(480.0, 145.0 + 90.0 * k as real)
  {
    DivAtLeast(550.0, 4.0, 90.0);
    assert NodeSpacing(4) == 90.0 && StartY(4) == 145.0;
    FindIndexOfUnique(dests, k);
  }

  lemma DestinationIds()
    ensures |Destinations()| == 4 && NoDuplicateIds(Destinations())
    ensures Destinations()[0].id == "splunk" && Destinations()[1].id == "datadog"
    ensures Destinations()[2].id == "elastic" && Destinations()[3].id == "sentinel"
  {
    var d := Destinations();
    assert d[0].id[0] == 's' && d[1].id[0] == 'd' && d[2].id[0] == 'e' && d[3].id[0] == 's';
    assert d[0].id[1] == 'p' && d[3].id[1] == 'e';
  }

  /** The four destinations are spaced 90 apart from y = 145. */
  lemma DestinationPositions()
    ensures DestinationPosition(Destinations(), "splunk") == Position(480.0, 145.0)
    ensures DestinationPosition(Destinations(), "datadog") == Position(480.0, 235.0)
    ensures DestinationPosition(Destinations(), "elastic") == Position(480.0, 325.0)
    ensures DestinationPosition(Destinations(), "sentinel") == Position(480.0, 415.0)
  {
    DestinationIds();
    DestinationRow(Destinations(), 0);
    DestinationRow(Destinations(), 1);
    DestinationRow(Destinations(), 2);
    DestinationRow(Destinations(), 3);
  }

  lemma DivAtLeast(a: real, c: real, b: real)
    requires c > 0.0 && b * c <= a
    ensures a / c >= b
  {
  }

  lemma DivAtMost(a: real, c: real, b: real)
    requires c > 0.0 && b * c >= a
    ensures a / c <= b
  {
  }

  /** The rows of a column fit inside the 650-unit container (the bottom of
      the last 60-unit node at or above 650) exactly when the column has at
      most 12 rows; so the expanded source column (28 rows) overflows it. */
  lemma ColumnFitsIff(count: nat)
    requires count >= 1
    ensures RowY(count, count - 1) + NodeHeight <= ContainerHeight <==> count <= 12
  {
    var c := count as real;
    if count <= 6 {
      DivAtLeast(550.0, c, 90.0);
      assert NodeSpacing(count) == 90.0;
      assert StartY(count) == (650.0 - c * 90.0) / 2.0;
    } else if count <= 11 {
      var q := 550.0 / c;
      DivAtLeast(550.0, c, 50.0);
      DivAtMost(550.0, c, 90.0);
      assert q * c == 550.0;
      assert NodeSpacing(count) == q;
      assert StartY(count) == 50.0;
      assert (c - 1.0) * q == c * q - q;
      assert RowY(count, count - 1) == 50.0 + (c - 1.0) * q;
    } else {
      DivAtMost(550.0, c, 50.0);
      assert NodeSpacing(count) == 50.0;
      if count == 12 {
        assert StartY(count) == 25.0;
      } else {
        assert StartY(count) == 20.0;
      }
    }
  }

  // ---------------------------------------------------------------------------
  // Hover highlighting

  /** An edge is highlighted when the hovered id is its source or its destination. */
  predicate EdgeHighlighted(hovered: Option<string>, c: Connection) {
    hovered == Some(c.source) || hovered == Some(c.destination)
  }

  /** A node is "connected" when the hovered id is set (and non-empty, since the
      empty string is falsy) and some visible edge joins it to the hovered node. */
  predicate NodeConnected(hovered: Option<string>, nodeId: string, visible: seq<Connection>) {
    hovered.Some? && hovered.value != "" &&
    exists i :: 0 <= i < |visible| &&
      ((visible[i].source == nodeId && visible[i].destination == hovered.value) ||
       (visible[i].destination == nodeId && visible[i].source == hovered.value))
  }

  /** Being connected is symmetric, and a connected node is the far end of a
      highlighted visible edge. */
  lemma NodeConnectedSymmetric(a: string, b: string, visible: seq<Connection>)
    requires a != "" && b != ""
    ensures NodeConnected(Some(a), b, visible) <==> NodeConnected(Some(b), a, visible)
    ensures NodeConnected(Some(a), b, visible) ==>
              exists c :: c in visible && EdgeHighlighted(Some(a), c) && (c.source == b || c.destination == b)
  {
    if NodeConnected(Some(a), b, visible) {
      var i :| 0 <= i < |visible| &&
        ((visible[i].source == b && visible[i].destination == a) ||
         (visible[i].destination == b && visible[i].source == a));
      assert visible[i] in visible && EdgeHighlighted(Some(a), visible[i]);
    }
  }

  /** With nothing hovered no edge is highlighted and no node is connected. */
  lemma NothingHovered(c: Connection, nodeId: string, visible: seq<Connection>)
    ensures !EdgeHighlighted(None, c) && !NodeConnected(None, nodeId, visible)
  {
  }

  // ---------------------------------------------------------------------------
  // Viewport and interaction state

  datatype Point = Point(x: int, y: int)

  /** The chart component's state: one value per state hook. */
  datatype ChartState = ChartState(
    hoveredNode: Option<string>,
    showAllSources: bool,
    zoomTenths: int,
    panOffset: Point,
    isPanning: bool,
    lastPanPoint: Point,
    isHovering: bool)

  function InitialState(): ChartState {
    ChartState(None, false, DefaultZoomTenths, Point(0, 0), false, Point(0, 0), false)
  }

  predicate ZoomInRange(z: int) {
    MinZoomTenths <= z <= MaxZoomTenths
  }

  function ClampZoom(z: int): (r: int)
    ensures ZoomInRange(r)
    ensures ZoomInRange(z) ==> r == z
  {
    if z < MinZoomTenths then MinZoomTenths else if z > MaxZoomTenths then MaxZoomTenths else z
  }

  /** The wheel handler: it acts only while the mouse hovers the container
      and the event target lies inside it; a positive deltaY zooms out one
      step, any other deltaY (0 included) zooms in one step, then the zoom is
      clamped to [0.5, 2]. */
  function Wheel(s: ChartState, deltaY: real, targetInside: bool): (r: ChartState)
    ensures !(s.isHovering && targetInside) ==> r == s
    ensures s.isHovering && targetInside ==>
              r == s.(zoomTenths := ClampZoom(s.zoomTenths + (if deltaY > 0.0 then -1 else 1)))
    ensures ZoomInRange(s.zoomTenths) ==> ZoomInRange(r.zoomTenths)
  {
    if s.isHovering && targetInside then
      s.(zoomTenths := ClampZoom(s.zoomTenths + (if deltaY > 0.0 then -1 else 1)))
    else s
  }

  function ContainerEnter(s: ChartState): ChartState {
    s.(isHovering := true)
  }

  /** Leaving the container ends hovering and panning. */
  function ContainerLeave(s: ChartState): ChartState {
    s.(isHovering := false, isPanning := false)
  }

  /** Only the left button (0) starts panning, remembering the press point. */
  function MouseDown(s: ChartState, button: int, p: Point): ChartState {
    if button == 0 then s.(isPanning := true, lastPanPoint := p) else s
  }

  /** While panning, a move adds the mouse's displacement since the last point. */
  function MouseMove(s: ChartState, p: Point): ChartState {
    if s.isPanning then
      s.(panOffset := Point(s.panOffset.x + (p.x - s.lastPanPoint.x), s.panOffset.y + (p.y - s.lastPanPoint.y)),
         lastPanPoint := p)
    else s
  }

  function MouseUp(s: ChartState): ChartState {
    s.(isPanning := false)
  }

  /** resetView: zoom back to 100% and pan back to the origin. */
  function ResetView(s: ChartState): ChartState {
    s.(zoomTenths := DefaultZoomTenths, panOffset := Point(0, 0))
  }

  function HoverNode(s: ChartState, id: string): ChartState {
    s.(hoveredNode := Some(id))
  }

  function UnhoverNode(s: ChartState): ChartState {
    s.(hoveredNode := None)
  }

  /** A click on the expand node flips the disclosure; the node exists only
      while some source is hidden, so without one there is nothing to click. */
  function ClickExpand(s: ChartState, all: seq<FlowNode>): ChartState {
    if ExpandNodeShown(all) then s.(showAllSources := !s.showAllSources) else s
  }

  datatype Event =
    | WheelEvent(deltaY: real, targetInside: bool)
    | Enter
    | Leave
    | Down(button: int, at: Point)
    | Move(to: Point)
    | Up
    | Reset
    | HoverEvent(id: string)
    | UnhoverEvent
    | ExpandClick

  /** One event; `all` is the source catalogue the expand node stands for. */
  function Apply(s: ChartState, e: Event, all: seq<FlowNode>): ChartState {
    match e
    case WheelEvent(d, inside) => Wheel(s, d, inside)
    case Enter => ContainerEnter(s)
    case Leave => ContainerLeave(s)
    case Down(b, p) => MouseDown(s, b, p)
    case Move(p) => MouseMove(s, p)
    case Up => MouseUp(s)
    case Reset => ResetView(s)
    case HoverEvent(id) => HoverNode(s, id)
    case UnhoverEvent => UnhoverNode(s)
    case ExpandClick => ClickExpand(s, all)
  }

  function Run(s: ChartState, events: seq<Event>, all: seq<FlowNode>): ChartState
    decreases |events|
  {
    if events == [] then s else Run(Apply(s, events[0], all), events[1..], all)
  }

  /** No single event takes the zoom out of [0.5, 2]. */
  lemma ApplyKeepsZoomInRange(s: ChartState, e: Event, all: seq<FlowNode>)
    requires ZoomInRange(s.zoomTenths)
    ensures ZoomInRange(Apply(s, e, all).zoomTenths)
  {
  }

  /** Whatever events arrive, in whatever number, the zoom stays within [0.5, 2]. */
  lemma {:induction false} ZoomAlwaysInRange(s: ChartState, events: seq<Event>, all: seq<FlowNode>)
    requires ZoomInRange(s.zoomTenths)
    ensures ZoomInRange(Run(s, events, all).zoomTenths)
    decreases |events|
  {
    if events != [] {
      ApplyKeepsZoomInRange(s, events[0], all);
      ZoomAlwaysInRange(Apply(s, events[0], all), events[1..], all);
    }
  }

  lemma InitialZoomInRange(events: seq<Event>, all: seq<FlowNode>)
    ensures ZoomInRange(Run(InitialState(), events, all).zoomTenths)
  {
    ZoomAlwaysInRange(InitialState(), events, all);
  }

  function Moves(points: seq<Point>): (r: seq<Event>)
    ensures |r| == |points|
  {
    if points == [] then [] else [Move(points[0])] + Moves(points[1..])
  }

  /** The pan offset telescopes over a drag: after any non-empty run of moves
      while panning, the offset has grown by the last point minus the point
      where the drag stood before the first move, and panning goes on. */
  lemma {:induction false} DragTelescopes(s: ChartState, points: seq<Point>, all: seq<FlowNode>)
    requires s.isPanning && points != []
    ensures var r := Run(s, Moves(points), all); var last := points[|points| - 1];
            r.isPanning && r.lastPanPoint == last &&
            r.panOffset == Point(s.panOffset.x + (last.x - s.lastPanPoint.x),
                                 s.panOffset.y + (last.y - s.lastPanPoint.y)) &&
            r.zoomTenths == s.zoomTenths && r.showAllSources == s.showAllSources
    decreases |points|
  {
    var m := Moves(points);
    assert m[0] == Move(points[0]) && m[1..] == Moves(points[1..]);
    var s1 := MouseMove(s, points[0]);
    if |points| > 1 {
      DragTelescopes(s1, points[1..], all);
    } else {
      assert Moves(points[1..]) == [];
    }
  }

  /** A left-button press followed by moves pans by exactly the last point
      minus the press point; mouse-up then ends the drag. */
  lemma PressDragRelease(s: ChartState, press: Point, points: seq<Point>, all: seq<FlowNode>)
    requires points != []
    ensures var r := MouseUp(Run(MouseDown(s, 0, press), Moves(points), all));
            var last := points[|points| - 1];
            !r.isPanning &&
            r.panOffset == Point(s.panOffset.x + (last.x - press.x), s.panOffset.y + (last.y - press.y))
  {
    DragTelescopes(MouseDown(s, 0, press), points, all);
  }

  /** Moves while not panning change nothing. */
  lemma {:induction false} MovesWithoutPanning(s: ChartState, points: seq<Point>, all: seq<FlowNode>)
    requires !s.isPanning
    ensures Run(s, Moves(points), all) == s
    decreases |points|
  {
    if points != [] {
      var m := Moves(points);
      assert m[0] == Move(points[0]) && m[1..] == Moves(points[1..]);
      MovesWithoutPanning(s, points[1..], all);
    }
  }

  /** The chart component, holding one field per state hook. */
  class FlowChartView {
    var hoveredNode: Option<string>
    var showAllSources: bool
    var zoomTenths: int
    var panOffset: Point
    var isPanning: bool
    var lastPanPoint: Point
    var isHovering: bool

    function State(): ChartState
      reads this
    {
      ChartState(hoveredNode, showAllSources, zoomTenths, panOffset, isPanning, lastPanPoint, isHovering)
    }

    predicate Valid()
      reads this
    {
      ZoomInRange(zoomTenths)
    }

    constructor ()
      ensures State() == InitialState() && Valid()
    {
      hoveredNode := None;
      showAllSources := false;
      zoomTenths := DefaultZoomTenths;
      panOffset := Point(0, 0);
      isPanning := false;
      lastPanPoint := Point(0, 0);
      isHovering := false;
    }

    method HandleWheel(deltaY: real, targetInside: bool)
      requires Valid()
      modifies this
      ensures Valid() && State() == Wheel(old(State()), deltaY, targetInside)
    {
      if isHovering && targetInside {
        var delta := if deltaY > 0.0 then -1 else 1;
        zoomTenths := ClampZoom(zoomTenths + delta);
      }
    }

    method HandleContainerEnter()
      modifies this
      ensures State() == ContainerEnter(old(State()))
    {
      isHovering := true;
    }

    /** The container's mouse-leave handler: leave, then mouse-up. */
    method HandleContainerLeave()
      modifies this
      ensures State() == ContainerLeave(old(State()))
    {
      isHovering := false;
      isPanning := false;
    }

    method HandleMouseDown(button: int, p: Point)
      modifies this
      ensures State() == MouseDown(old(State()), button, p)
    {
      if button == 0 {
        isPanning := true;
        lastPanPoint := p;
      }
    }

    method HandleMouseMove(p: Point)
      modifies this
      ensures State() == MouseMove(old(State()), p)
    {
      if isPanning {
        var dx := p.x - lastPanPoint.x;
        var dy := p.y - lastPanPoint.y;
        panOffset := Point(panOffset.x + dx, panOffset.y + dy);
        lastPanPoint := p;
      }
    }

    method HandleMouseUp()
      modifies this
      ensures State() == MouseUp(old(State()))
    {
      isPanning := false;
    }

    method HandleResetView()
      modifies this
      ensures Valid() && State() == ResetView(old(State()))
    {
      zoomTenths := DefaultZoomTenths;
      panOffset := Point(0, 0);
    }

    method HandleNodeEnter(id: string)
      modifies this
      ensures State() == HoverNode(old(State()), id)
    {
      hoveredNode := Some(id);
    }

    method HandleNodeLeave()
      modifies this
      ensures State() == UnhoverNode(old(State()))
    {
      hoveredNode := None;
    }

    method HandleExpandClick()
      modifies this
      ensures State() == ClickExpand(old(State()), AllSources())
    {
      if HiddenSourcesCount(AllSources()) > 0 {
        showAllSources := !showAllSources;
      }
    }
  }
}

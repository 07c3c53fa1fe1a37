/** The `services` command (cmd/services.go): one row per Service with its
    type, cluster IP, external IPs, ports and age. */
module Services {
  import opened Wrappers
  import opened Format
  import opened Workloads
  import opened KubeConfig
  import opened Listing

  // ---------------------------------------------------------------------
  // EXTERNAL-IP

  /** What one load-balancer ingress entry contributes: its IP when set,
      otherwise its hostname when set, otherwise nothing. */
  function Contribution(ingress: LoadBalancerIngress): (r: seq<string>)
    ensures |r| <= 1
    ensures |r| == 1 <==> ingress.ip != "" || ingress.hostname != ""
    ensures |r| == 1 ==> r[0] != "" && (r[0] == ingress.ip || (ingress.ip == "" && r[0] == ingress.hostname))
  {
    if ingress.ip != "" then [ingress.ip]
    else if ingress.hostname != "" then [ingress.hostname]
    else []
  }

  /** The contributions of all ingress entries, in ingress order. */
  function Contributions(ingress: seq<LoadBalancerIngress>): seq<string>
  {
    if |ingress| == 0 then []
    else Contribution(ingress[0]) + Contributions(ingress[1..])
  }

  /** The EXTERNAL-IP column. Ingress entries, when there are any, decide
      alone: their contributions joined by ",", or "<none>" when none
      contributes. Only without ingress entries are Spec.ExternalIPs used,
      joined by ","; with neither the column reads "<none>". */
  function ExternalIPsOf(svc: Service): string
  {
    if |svc.ingress| > 0 then
      var ips := Contributions(svc.ingress);
      if |ips| > 0 then Join(ips, ",") else "<none>"
    else if |svc.externalIPs| > 0 then Join(svc.externalIPs, ",")
    else "<none>"
  }

  /** The loop over the load-balancer ingress entries that collects `ips`. */
  method IngressAddresses(ingress: seq<LoadBalancerIngress>) returns (ips: seq<string>)
    ensures ips == Contributions(ingress)
  {
    ips := [];
    var i := 0;
    while i < |ingress|
      invariant 0 <= i <= |ingress|
      invariant ips == Contributions(ingress[..i])
    {
      var entry := ingress[i];
      if entry.ip != "" {
        ips := ips + [entry.ip];
      } else if entry.hostname != "" {
        ips := ips + [entry.hostname];
      }
      assert ingress[..i + 1] == ingress[..i] + [entry];
      ContributionsAppend(ingress[..i], [entry]);
      i := i + 1;
    }
    assert ingress[..i] == ingress;
  }

  /** The computation of `externalIPs`: "<none>" unless the ingress
      entries contribute addresses or, without ingress entries,
      Spec.ExternalIPs are set. */
  method ExternalIPs(svc: Service) returns (externalIPs: string)
    ensures externalIPs == ExternalIPsOf(svc)
  {
    externalIPs := "<none>";
    if |svc.ingress| > 0 {
      var ips := IngressAddresses(svc.ingress);
      if |ips| > 0 {
        externalIPs := Join(ips, ",");
      }
    } else if |svc.externalIPs| > 0 {
      externalIPs := Join(svc.externalIPs, ",");
    }
  }

  /** When every ingress entry has an IP, the contributions are exactly
      those IPs, one per entry, in order. */
  lemma {:induction false} ContributionsAllIPs(ingress: seq<LoadBalancerIngress>)
    requires forall k :: 0 <= k < |ingress| ==> ingress[k].ip != ""
    ensures Contributions(ingress) == seq(|ingress|, k requires 0 <= k < |ingress| => ingress[k].ip)
  {
    if |ingress| > 0 {
      ContributionsAllIPs(ingress[1..]);
    }
  }

  /** Contributions distribute over concatenation: each entry is judged
      on its own, and order is kept. */
  lemma {:induction false} ContributionsAppend(a: seq<LoadBalancerIngress>, b: seq<LoadBalancerIngress>)
    ensures Contributions(a + b) == Contributions(a) + Contributions(b)
  {
    if |a| == 0 {
      assert a + b == b;
    } else {
      assert (a + b)[1..] == a[1..] + b;
      ContributionsAppend(a[1..], b);
    }
  }

  /** Ingress entries decide alone: once there is at least one, the
      Service's Spec.ExternalIPs make no difference. */
  lemma ExternalIPsIgnoreSpecWhenIngress(svc: Service, other: seq<string>)
    requires |svc.ingress| > 0
    ensures ExternalIPsOf(svc) == ExternalIPsOf(svc.(externalIPs := other))
  {
  }

  /** Reading EXTERNAL-IP back: splitting at "," gives the contributing
      ingress addresses in order, or the Spec.ExternalIPs when there are no
      ingress entries (none of the addresses containing a comma). */
  lemma ExternalIPsListsSources(svc: Service)
    requires forall k :: 0 <= k < |svc.ingress| ==> ',' !in svc.ingress[k].ip && ',' !in svc.ingress[k].hostname
    requires forall k :: 0 <= k < |svc.externalIPs| ==> ',' !in svc.externalIPs[k]
    ensures |svc.ingress| > 0 && |Contributions(svc.ingress)| > 0 ==>
      Split(ExternalIPsOf(svc), ',') == Contributions(svc.ingress)
    ensures |svc.ingress| == 0 && |svc.externalIPs| > 0 ==>
      Split(ExternalIPsOf(svc), ',') == svc.externalIPs
    ensures ((|svc.ingress| > 0 && |Contributions(svc.ingress)| == 0)
             || (|svc.ingress| == 0 && |svc.externalIPs| == 0)) ==>
      ExternalIPsOf(svc) == "<none>"
  {
    assert "," == [','];
    if |svc.ingress| > 0 && |Contributions(svc.ingress)| > 0 {
      ContributionsWithout(svc.ingress, ',');
      SplitJoin(Contributions(svc.ingress), ',');
    }
    if |svc.ingress| == 0 && |svc.externalIPs| > 0 {
      SplitJoin(svc.externalIPs, ',');
    }
  }

  /** A character in no IP and no hostname is in no contribution. */
  lemma {:induction false} ContributionsWithout(ingress: seq<LoadBalancerIngress>, c: char)
    requires forall k :: 0 <= k < |ingress| ==> c !in ingress[k].ip && c !in ingress[k].hostname
    ensures forall k :: 0 <= k < |Contributions(ingress)| ==> c !in Contributions(ingress)[k]
  {
    if |ingress| > 0 {
      ContributionsWithout(ingress[1..], c);
    }
  }

  // ---------------------------------------------------------------------
  // PORT(S)

  /** One port: "port:nodePort/protocol" when a node port is assigned
      (non-zero), otherwise "port/protocol". */
  function PortEntry(p: ServicePort): string
  {
    if p.nodePort != 0 then IntToString(p.port) + ":" + IntToString(p.nodePort) + "/" + p.protocol
    else IntToString(p.port) + "/" + p.protocol
  }

  function PortEntries(ports: seq<ServicePort>): seq<string>
  {
    seq(|ports|, k requires 0 <= k < |ports| => PortEntry(ports[k]))
  }

  /** The PORT(S) column: one entry per port, joined by "," in spec order. */
  function PortsOf(ports: seq<ServicePort>): string
  {
    Join(PortEntries(ports), ",")
  }

  /** The loop that collects `ports`, then strings.Join. */
  method FormatPorts(ports: seq<ServicePort>) returns (portString: string)
    ensures portString == PortsOf(ports)
  {
    var entries: seq<string> := [];
    var i := 0;
    while i < |ports|
      invariant 0 <= i <= |ports|
      invariant |entries| == i
      invariant forall k :: 0 <= k < i ==> entries[k] == PortEntry(ports[k])
    {
      var port := ports[i];
      if port.nodePort != 0 {
        entries := entries + [IntToString(port.port) + ":" + IntToString(port.nodePort) + "/" + port.protocol];
      } else {
        entries := entries + [IntToString(port.port) + "/" + port.protocol];
      }
      i := i + 1;
    }
    assert entries == PortEntries(ports);
    portString := Join(entries, ",");
  }

  /** Reads one port entry back: the text before the first "/" is the port
      or "port:nodePort", the rest is the protocol. */
  function ParsePortEntry(s: string): Option<ServicePort>
  {
    match Cut(s, '/')
    case None => None
    case Some(halves) =>
      match Cut(halves.0, ':')
      case None =>
        (match ParseInt(halves.0)
         case Some(port) => if InInt32(port) then Some(ServicePort(port, 0, halves.1)) else None
         case None => None)
      case Some(numbers) =>
        match (ParseInt(numbers.0), ParseInt(numbers.1))
        case (Some(port), Some(nodePort)) =>
          if InInt32(port) && InInt32(nodePort) then Some(ServicePort(port, nodePort, halves.1)) else None
        case _ => None
  }

  /** A port entry determines the port it was rendered from: port number,
      node port (0 when absent) and protocol all read back. */
  lemma PortEntryRoundTrip(p: ServicePort)
    ensures ParsePortEntry(PortEntry(p)) == Some(p)
  {
    var port := IntToString(p.port);
    NumberWithout(p.port, '/');
    NumberWithout(p.port, ':');
    ParseIntToString(p.port);
    if p.nodePort != 0 {
      var nodePort := IntToString(p.nodePort);
      NumberWithout(p.nodePort, '/');
      ParseIntToString(p.nodePort);
      assert PortEntry(p) == (port + [':'] + nodePort) + ['/'] + p.protocol;
      CutAt(port + [':'] + nodePort, p.protocol, '/');
      CutAt(port, nodePort, ':');
    } else {
      assert PortEntry(p) == port + ['/'] + p.protocol;
      CutAt(port, p.protocol, '/');
    }
  }

  /** Reading PORT(S) back: splitting at "," gives one entry per port in
      spec order, provided no protocol contains a comma; no ports give "". */
  lemma PortsListsEntries(ports: seq<ServicePort>)
    requires forall k :: 0 <= k < |ports| ==> ',' !in ports[k].protocol
    ensures |ports| == 0 ==> PortsOf(ports) == ""
    ensures |ports| > 0 ==> Split(PortsOf(ports), ',') == PortEntries(ports)
    ensures |PortEntries(ports)| == |ports|
  {
    if |ports| > 0 {
      forall k | 0 <= k < |ports|
        ensures ',' !in PortEntries(ports)[k]
      {
        NumberWithout(ports[k].port, ',');
        NumberWithout(ports[k].nodePort, ',');
      }
      assert "," == [','];
      SplitJoin(PortEntries(ports), ',');
    }
  }

  // ---------------------------------------------------------------------
  // Header and rows

  function Row(allNamespaces: bool, svc: Service, age: string): seq<string>
  {
    (if allNamespaces then [svc.namespace] else [])
      + [svc.name, svc.serviceType, svc.clusterIP, ExternalIPsOf(svc), PortsOf(svc.ports), age]
  }

  /** The columns of the services table, in order. */
  datatype Column = Namespace | Name | Type | ClusterIP | ExternalIP | Ports | Age

  function Columns(allNamespaces: bool): seq<Column>
  {
    (if allNamespaces then [Namespace] else []) + [Name, Type, ClusterIP, ExternalIP, Ports, Age]
  }

  /** A column's header text. */
  function Title(column: Column): string
  {
    match column
    case Namespace => "NAMESPACE"
    case Name => "NAME"
    case Type => "TYPE"
    case ClusterIP => "CLUSTER-IP"
    case ExternalIP => "EXTERNAL-IP"
    case Ports => "PORT(S)"
    case Age => "AGE"
  }

  /** The header line: the titles of the columns, in order. */
  function Header(allNamespaces: bool): seq<string>
  {
    var columns := Columns(allNamespaces);
    seq(|columns|, k requires 0 <= k < |columns| => Title(columns[k]))
  }

  /** The value a Service shows in a column. */
  function Field(column: Column, svc: Service, age: string): string
  {
    match column
    case Namespace => svc.namespace
    case Name => svc.name
    case Type => svc.serviceType
    case ClusterIP => svc.clusterIP
    case ExternalIP => ExternalIPsOf(svc)
    case Ports => PortsOf(svc.ports)
    case Age => age
  }

  /** Header and rows have one field per column, 7 under
      --all-namespaces and 6 otherwise, and every field sits under the
      title of its own column. */
  lemma RowMatchesHeader(allNamespaces: bool, svc: Service, age: string)
    ensures |Header(allNamespaces)| == |Row(allNamespaces, svc, age)| == |Columns(allNamespaces)|
         == if allNamespaces then 7 else 6
    ensures forall k :: 0 <= k < |Columns(allNamespaces)| ==>
      Header(allNamespaces)[k] == Title(Columns(allNamespaces)[k])
      && Row(allNamespaces, svc, age)[k] == Field(Columns(allNamespaces)[k], svc, age)
  {
    var d := if allNamespaces then 1 else 0;
    var row := Row(allNamespaces, svc, age);
    var columns := Columns(allNamespaces);
    assert row[d..] == [svc.name, svc.serviceType, svc.clusterIP, ExternalIPsOf(svc), PortsOf(svc.ports), age];
    assert columns[d..] == [Name, Type, ClusterIP, ExternalIP, Ports, Age];
  }

  /** --all-namespaces only adds NAMESPACE as the first column; the other
      columns and their values are unchanged. */
  lemma NamespaceColumnFirst(svc: Service, age: string)
    ensures Columns(true) == [Namespace] + Columns(false)
    ensures Header(true) == ["NAMESPACE"] + Header(false)
    ensures Row(true, svc, age) == [svc.namespace] + Row(false, svc, age)
  {
  }

  /** Column titles are distinct, so a title names exactly one column. */
  lemma TitlesDistinct(c1: Column, c2: Column)
    ensures Title(c1) == Title(c2) ==> c1 == c2
  {
    if Title(c1) == Title(c2) {
      assert |Title(c1)| == |Title(c2)|;
      assert Title(c1)[0] == Title(c2)[0];
    }
  }

  /** The body of the per-service loop: format the external IPs and the
      ports, then lay out the fields. */
  method ServiceRow(allNamespaces: bool, service: Service, age: string) returns (row: seq<string>)
    ensures row == Row(allNamespaces, service, age)
  {
    var externalIPs := ExternalIPs(service);
    var portString := FormatPorts(service.ports);
    if allNamespaces {
      row := [service.namespace, service.name, service.serviceType, service.clusterIP, externalIPs, portString, age];
    } else {
      row := [service.name, service.serviceType, service.clusterIP, externalIPs, portString, age];
    }
  }

  /** The row layout as a function of the Service, for one listing. */
  function RowOf(allNamespaces: bool, age: Service -> string): Service -> seq<string>
  {
    svc => Row(allNamespaces, svc, age(svc))
  }

  /** The per-service loop: one row per listed Service, in list order. */
  method ServiceRows(allNamespaces: bool, items: seq<Service>, age: Service -> string)
    returns (rows: seq<seq<string>>)
    ensures |rows| == |items|
    ensures forall k :: 0 <= k < |items| ==> rows[k] == Row(allNamespaces, items[k], age(items[k]))
  {
    rows := [];
    var i := 0;
    while i < |items|
      invariant 0 <= i <= |items|
      invariant |rows| == i
      invariant forall k :: 0 <= k < i ==> rows[k] == Row(allNamespaces, items[k], age(items[k]))
    {
      var row := ServiceRow(allNamespaces, items[i], age(items[i]));
      rows := rows + [row];
      i := i + 1;
    }
  }

  // ---------------------------------------------------------------------
  // The command

  /** servicesCmd.Run. The cluster is `list` (the Services the API returns
      for a namespace, "" meaning all) and `age` is the wall clock's AGE
      text for a Service. */
  method ListServices(flags: Flags, inCluster: bool, env: Env, files: Files,
                      list: string -> Result<seq<Service>, string>, age: Service -> string)
    returns (out: ListingOutput)
    ensures ConfigSource(inCluster, env, files).Err? ==>
      out == ClientFailed(ConfigSource(inCluster, env, files).error)
    ensures ConfigSource(inCluster, env, files).Ok? ==>
      var ns := NamespaceScope(flags, env, files);
      out == Render("services", flags.allNamespaces, ns, list(ns), Header(flags.allNamespaces),
                    RowOf(flags.allNamespaces, age))
  {
    var client := GetKubernetesClient(inCluster, env, files);
    if client.Err? {
      return ClientFailed(client.error);
    }
    var ns := ChooseNamespace(flags, env, files);
    out := PrintServices(flags.allNamespaces, ns, list(ns), age);
  }

  /** servicesCmd.Run once the namespace is chosen and the list call has
      answered: the error line, the "No services found" line, or the table. */
  method PrintServices(allNamespaces: bool, ns: string, services: Result<seq<Service>, string>,
                       age: Service -> string)
    returns (out: ListingOutput)
    ensures out == Render("services", allNamespaces, ns, services, Header(allNamespaces), RowOf(allNamespaces, age))
  {
    if services.Err? {
      return ListFailed("Error listing services: " + services.error);
    }
    var items := services.value;
    if |items| == 0 {
      return NoneFound(NoneFoundLine("services", allNamespaces, ns));
    }

    var header := Header(allNamespaces);
    var rows := ServiceRows(allNamespaces, items, age);
    RenderTable("services", allNamespaces, ns, items, header, RowOf(allNamespaces, age), rows);
    out := Table(header, rows);
  }
}

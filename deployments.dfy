/** The `deployments` command (cmd/deployments.go): one row per Deployment
    with its ready/desired replica count, up-to-date and available
    replicas, and age. */
module Deployments {
  import opened Wrappers
  import opened Format
  import opened Workloads
  import opened KubeConfig
  import opened Listing

  // ---------------------------------------------------------------------
  // Header and rows

  /** A Deployment's row: READY is Status.ReadyReplicas over the desired
      *Spec.Replicas, then the updated and available replica counts. */
  function Row(allNamespaces: bool, d: Deployment, age: string): seq<string>
  {
    (if allNamespaces then [d.namespace] else [])
      + [d.name, Fraction(d.readyReplicas, d.replicas),
         IntToString(d.updatedReplicas), IntToString(d.availableReplicas), age]
  }

  /** The columns of the deployments table, in order. */
  datatype Column = Namespace | Name | Ready | UpToDate | Available | Age

  function Columns(allNamespaces: bool): seq<Column>
  {
    (if allNamespaces then [Namespace] else []) + [Name, Ready, UpToDate, Available, Age]
  }

  /** A column's header text. */
  function Title(column: Column): string
  {
    match column
    case Namespace => "NAMESPACE"
    case Name => "NAME"
    case Ready => "READY"
    case UpToDate => "UP-TO-DATE"
    case Available => "AVAILABLE"
    case Age => "AGE"
  }

  /** The header line: the titles of the columns, in order. */
  function Header(allNamespaces: bool): seq<string>
  {
    var columns := Columns(allNamespaces);
    seq(|columns|, k requires 0 <= k < |columns| => Title(columns[k]))
  }

  /** The value a Deployment shows in a column: READY is
      Status.ReadyReplicas over the desired *Spec.Replicas. */
  function Field(column: Column, d: Deployment, age: string): string
  {
    match column
    case Namespace => d.namespace
    case Name => d.name
    case Ready => Fraction(d.readyReplicas, d.replicas)
    case UpToDate => IntToString(d.updatedReplicas)
    case Available => IntToString(d.availableReplicas)
    case Age => age
  }

  /** Header and rows have one field per column, 6 under
      --all-namespaces and 5 otherwise, and every field sits under the
      title of its own column. */
  lemma RowMatchesHeader(allNamespaces: bool, d: Deployment, age: string)
    ensures |Header(allNamespaces)| == |Row(allNamespaces, d, age)| == |Columns(allNamespaces)|
         == if allNamespaces then 6 else 5
    ensures forall k :: 0 <= k < |Columns(allNamespaces)| ==>
      Header(allNamespaces)[k] == Title(Columns(allNamespaces)[k])
      && Row(allNamespaces, d, age)[k] == Field(Columns(allNamespaces)[k], d, age)
  {
    var skip := if allNamespaces then 1 else 0;
    var row := Row(allNamespaces, d, age);
    var columns := Columns(allNamespaces);
    assert row[skip..] == [d.name, Fraction(d.readyReplicas, d.replicas),
                           IntToString(d.updatedReplicas), IntToString(d.availableReplicas), age];
    assert columns[skip..] == [Name, Ready, UpToDate, Available, Age];
  }

  /** --all-namespaces only adds NAMESPACE as the first column; the other
      columns and their values are unchanged. */
  lemma NamespaceColumnFirst(d: Deployment, age: string)
    ensures Columns(true) == [Namespace] + Columns(false)
    ensures Header(true) == ["NAMESPACE"] + Header(false)
    ensures Row(true, d, age) == [d.namespace] + Row(false, d, age)
  {
  }

  /** Column titles are distinct, so a title names exactly one column. */
  lemma TitlesDistinct(c1: Column, c2: Column)
    ensures Title(c1) == Title(c2) ==> c1 == c2
  {
    if Title(c1) == Title(c2) {
      assert |Title(c1)| == |Title(c2)|;
      assert Title(c1)[0] == Title(c2)[0];
    }
  }

  /** The replica counts read back from a row: READY as ready/desired,
      UP-TO-DATE and AVAILABLE as the updated and available counts. */
  lemma ReplicasReadBack(d: Deployment, age: string)
    ensures var row := Row(false, d, age);
      ParseFraction(row[1]) == Some((d.readyReplicas as int, d.replicas as int))
      && ParseInt(row[2]) == Some(d.updatedReplicas as int)
      && ParseInt(row[3]) == Some(d.availableReplicas as int)
  {
    FractionRoundTrip(d.readyReplicas, d.replicas);
    ParseIntToString(d.updatedReplicas);
    ParseIntToString(d.availableReplicas);
  }

  /** The row layout as a function of the Deployment, for one listing. */
  function RowOf(allNamespaces: bool, age: Deployment -> string): Deployment -> seq<string>
  {
    d => Row(allNamespaces, d, age(d))
  }

  /** The per-deployment loop: one row per listed Deployment, in list order. */
  method DeploymentRows(allNamespaces: bool, items: seq<Deployment>, age: Deployment -> string)
    returns (rows: seq<seq<string>>)
    ensures |rows| == |items|
    ensures forall k :: 0 <= k < |items| ==> rows[k] == Row(allNamespaces, items[k], age(items[k]))
  {
    rows := [];
    var i := 0;
    while i < |items|
      invariant 0 <= i <= |items|
      invariant |rows| == i
      invariant forall k :: 0 <= k < i ==> rows[k] == Row(allNamespaces, items[k], age(items[k]))
    {
      rows := rows + [Row(allNamespaces, items[i], age(items[i]))];
      i := i + 1;
    }
  }

  // ---------------------------------------------------------------------
  // The command

  /** deploymentsCmd.Run. The cluster is `list` (the Deployments the API
      returns for a namespace, "" meaning all) and `age` is the wall
      clock's AGE text. */
  method ListDeployments(flags: Flags, inCluster: bool, env: Env, files: Files,
                         list: string -> Result<seq<Deployment>, string>, age: Deployment -> string)
    returns (out: ListingOutput)
    ensures ConfigSource(inCluster, env, files).Err? ==>
      out == ClientFailed(ConfigSource(inCluster, env, files).error)
    ensures ConfigSource(inCluster, env, files).Ok? ==>
      var ns := NamespaceScope(flags, env, files);
      out == Render("deployments", flags.allNamespaces, ns, list(ns), Header(flags.allNamespaces),
                    RowOf(flags.allNamespaces, age))
  {
    var client := GetKubernetesClient(inCluster, env, files);
    if client.Err? {
      return ClientFailed(client.error);
    }
    var ns := ChooseNamespace(flags, env, files);
    out := PrintDeployments(flags.allNamespaces, ns, list(ns), age);
  }

  /** deploymentsCmd.Run once the namespace is chosen and the list call
      has answered: the error line, the "No deployments found" line, or
      the table. */
  method PrintDeployments(allNamespaces: bool, ns: string, deployments: Result<seq<Deployment>, string>,
                          age: Deployment -> string)
    returns (out: ListingOutput)
    ensures out == Render("deployments", allNamespaces, ns, deployments, Header(allNamespaces),
                          RowOf(allNamespaces, age))
  {
    if deployments.Err? {
      return ListFailed("Error listing deployments: " + deployments.error);
    }
    var items := deployments.value;
    if |items| == 0 {
      return NoneFound(NoneFoundLine("deployments", allNamespaces, ns));
    }

    var header := Header(allNamespaces);
    var rows := DeploymentRows(allNamespaces, items, age);
    RenderTable("deployments", allNamespaces, ns, items, header, RowOf(allNamespaces, age), rows);
    out := Table(header, rows);
  }
}

/** The `pods` command (cobra-cli/cmd/pods.go): one row per Pod with its
    ready/total container count, phase, restart total and age. */
module Pods {
  import opened Wrappers
  import opened Format
  import opened Workloads
  import opened KubeConfig
  import opened Listing

  /** The number of containers reporting Ready. */
  function CountReady(statuses: seq<ContainerStatus>): (n: nat)
    ensures n <= |statuses|
  {
    if |statuses| == 0 then 0
    else CountReady(statuses[..|statuses| - 1]) + if statuses[|statuses| - 1].ready then 1 else 0
  }

  /** READY shows total/total exactly when every container is ready and
      0/total exactly when none is. */
  lemma {:induction false} CountReadyExtremes(statuses: seq<ContainerStatus>)
    ensures CountReady(statuses) == |statuses| <==> forall k :: 0 <= k < |statuses| ==> statuses[k].ready
    ensures CountReady(statuses) == 0 <==> forall k :: 0 <= k < |statuses| ==> !statuses[k].ready
  {
    if |statuses| > 0 {
      var prefix := statuses[..|statuses| - 1];
      CountReadyExtremes(prefix);
      assert forall k :: 0 <= k < |prefix| ==> prefix[k] == statuses[k];
    }
  }

  /** The mathematical sum of the containers' restart counts. */
  function SumRestarts(statuses: seq<ContainerStatus>): int
  {
    if |statuses| == 0 then 0
    else SumRestarts(statuses[..|statuses| - 1]) + statuses[|statuses| - 1].restartCount
  }

  /** The RESTARTS value: the sum as accumulated in an int32 variable. */
  function RestartTotal(statuses: seq<ContainerStatus>): Int32
  {
    Wrap32(SumRestarts(statuses))
  }

  /** The inner loop over container statuses: `readyCount++` for every
      ready container and `restarts += RestartCount` in int32. */
  method ContainerCounts(statuses: seq<ContainerStatus>)
    returns (readyCount: nat, totalCount: nat, restarts: Int32)
    ensures readyCount == CountReady(statuses) && totalCount == |statuses|
    ensures restarts == RestartTotal(statuses)
    ensures 0 <= readyCount <= totalCount
  {
    readyCount := 0;
    totalCount := |statuses|;
    restarts := 0;
    var i := 0;
    while i < |statuses|
      invariant 0 <= i <= |statuses|
      invariant readyCount == CountReady(statuses[..i])
      invariant restarts == Wrap32(SumRestarts(statuses[..i]))
    {
      var containerStatus := statuses[i];
      if containerStatus.ready {
        readyCount := readyCount + 1;
      }
      WrapAdd(SumRestarts(statuses[..i]), containerStatus.restartCount);
      restarts := Wrap32(restarts + containerStatus.restartCount);
      assert statuses[..i + 1][..i] == statuses[..i];
      i := i + 1;
    }
    assert statuses[..i] == statuses;
  }

  /** Restart counts are never negative in the API; when their total fits
      in an int32, RESTARTS shows that total exactly. */
  lemma {:induction false} RestartsExact(statuses: seq<ContainerStatus>)
    requires forall k :: 0 <= k < |statuses| ==> statuses[k].restartCount >= 0
    requires SumRestarts(statuses) < 0x8000_0000
    ensures RestartTotal(statuses) == SumRestarts(statuses) >= 0
  {
    SumNonNegative(statuses);
  }

  lemma {:induction false} SumNonNegative(statuses: seq<ContainerStatus>)
    requires forall k :: 0 <= k < |statuses| ==> statuses[k].restartCount >= 0
    ensures SumRestarts(statuses) >= 0
  {
    if |statuses| > 0 {
      SumNonNegative(statuses[..|statuses| - 1]);
    }
  }

  // ---------------------------------------------------------------------
  // Header and rows

  function Row(allNamespaces: bool, pod: Pod, age: string): seq<string>
  {
    (if allNamespaces then [pod.namespace] else [])
      + [pod.name, Fraction(CountReady(pod.containerStatuses), |pod.containerStatuses|),
         pod.phase, IntToString(RestartTotal(pod.containerStatuses)), age]
  }

  /** The columns of the pods table, in order. */
  datatype Column = Namespace | Name | Ready | Status | Restarts | Age

  function Columns(allNamespaces: bool): seq<Column>
  {
    (if allNamespaces then [Namespace] else []) + [Name, Ready, Status, Restarts, Age]
  }

  /** A column's header text. */
  function Title(column: Column): string
  {
    match column
    case Namespace => "NAMESPACE"
    case Name => "NAME"
    case Ready => "READY"
    case Status => "STATUS"
    case Restarts => "RESTARTS"
    case Age => "AGE"
  }

  /** The header line: the titles of the columns, in order. */
  function Header(allNamespaces: bool): seq<string>
  {
    var columns := Columns(allNamespaces);
    seq(|columns|, k requires 0 <= k < |columns| => Title(columns[k]))
  }

  /** The value a Pod shows in a column. */
  function Field(column: Column, pod: Pod, age: string): string
  {
    match column
    case Namespace => pod.namespace
    case Name => pod.name
    case Ready => Fraction(CountReady(pod.containerStatuses), |pod.containerStatuses|)
    case Status => pod.phase
    case Restarts => IntToString(RestartTotal(pod.containerStatuses))
    case Age => age
  }

  /** Header and rows have one field per column, 6 under
      --all-namespaces and 5 otherwise, and every field sits under the
      title of its own column. */
  lemma RowMatchesHeader(allNamespaces: bool, pod: Pod, age: string)
    ensures |Header(allNamespaces)| == |Row(allNamespaces, pod, age)| == |Columns(allNamespaces)|
         == if allNamespaces then 6 else 5
    ensures forall k :: 0 <= k < |Columns(allNamespaces)| ==>
      Header(allNamespaces)[k] == Title(Columns(allNamespaces)[k])
      && Row(allNamespaces, pod, age)[k] == Field(Columns(allNamespaces)[k], pod, age)
  {
    var d := if allNamespaces then 1 else 0;
    var row := Row(allNamespaces, pod, age);
    var columns := Columns(allNamespaces);
    assert row[d..] == [pod.name, Fraction(CountReady(pod.containerStatuses), |pod.containerStatuses|),
                        pod.phase, IntToString(RestartTotal(pod.containerStatuses)), age];
    assert columns[d..] == [Name, Ready, Status, Restarts, Age];
  }

  /** --all-namespaces only adds NAMESPACE as the first column; the other
      columns and their values are unchanged. */
  lemma NamespaceColumnFirst(pod: Pod, age: string)
    ensures Columns(true) == [Namespace] + Columns(false)
    ensures Header(true) == ["NAMESPACE"] + Header(false)
    ensures Row(true, pod, age) == [pod.namespace] + Row(false, pod, age)
  {
  }

  /** Column titles are distinct, so a title names exactly one column. */
  lemma TitlesDistinct(c1: Column, c2: Column)
    ensures Title(c1) == Title(c2) ==> c1 == c2
  {
    if Title(c1) == Title(c2) {
      assert |Title(c1)| == |Title(c2)|;
      assert Title(c1)[0] == Title(c2)[0];
    }
  }

  /** READY reads back as ready/total with 0 <= ready <= total, ready
      counting the ready containers and total all container statuses;
      RESTARTS reads back as the int32 restart total. */
  lemma ReadyAndRestartsReadBack(pod: Pod, age: string)
    ensures var row := Row(false, pod, age);
      ParseFraction(row[1]) == Some((CountReady(pod.containerStatuses), |pod.containerStatuses|))
      && ParseInt(row[3]) == Some(RestartTotal(pod.containerStatuses) as int)
    ensures 0 <= CountReady(pod.containerStatuses) <= |pod.containerStatuses|
  {
    FractionRoundTrip(CountReady(pod.containerStatuses), |pod.containerStatuses|);
    ParseIntToString(RestartTotal(pod.containerStatuses));
  }

  /** The body of the per-pod loop. */
  method PodRow(allNamespaces: bool, pod: Pod, age: string) returns (row: seq<string>)
    ensures row == Row(allNamespaces, pod, age)
  {
    var readyCount, totalCount, restarts := ContainerCounts(pod.containerStatuses);
    var ready := IntToString(readyCount) + "/" + IntToString(totalCount);
    if allNamespaces {
      row := [pod.namespace, pod.name, ready, pod.phase, IntToString(restarts), age];
    } else {
      row := [pod.name, ready, pod.phase, IntToString(restarts), age];
    }
  }

  /** The row layout as a function of the Pod, for one listing. */
  function RowOf(allNamespaces: bool, age: Pod -> string): Pod -> seq<string>
  {
    pod => Row(allNamespaces, pod, age(pod))
  }

  /** The per-pod loop: one row per listed Pod, in list order. */
  method PodRows(allNamespaces: bool, items: seq<Pod>, age: Pod -> string)
    returns (rows: seq<seq<string>>)
    ensures |rows| == |items|
    ensures forall k :: 0 <= k < |items| ==> rows[k] == Row(allNamespaces, items[k], age(items[k]))
  {
    rows := [];
    var i := 0;
    while i < |items|
      invariant 0 <= i <= |items|
      invariant |rows| == i
      invariant forall k :: 0 <= k < i ==> rows[k] == Row(allNamespaces, items[k], age(items[k]))
    {
      var row := PodRow(allNamespaces, items[i], age(items[i]));
      rows := rows + [row];
      i := i + 1;
    }
  }

  // ---------------------------------------------------------------------
  // The command

  /** podsCmd.Run. The cluster is `list` (the Pods the API returns for a
      namespace, "" meaning all) and `age` is the wall clock's AGE text. */
  method ListPods(flags: Flags, inCluster: bool, env: Env, files: Files,
                  list: string -> Result<seq<Pod>, string>, age: Pod -> string)
    returns (out: ListingOutput)
    ensures ConfigSource(inCluster, env, files).Err? ==>
      out == ClientFailed(ConfigSource(inCluster, env, files).error)
    ensures ConfigSource(inCluster, env, files).Ok? ==>
      var ns := NamespaceScope(flags, env, files);
      out == Render("pods", flags.allNamespaces, ns, list(ns), Header(flags.allNamespaces),
                    RowOf(flags.allNamespaces, age))
  {
    var client := GetKubernetesClient(inCluster, env, files);
    if client.Err? {
      return ClientFailed(client.error);
    }
    var ns := ChooseNamespace(flags, env, files);
    out := PrintPods(flags.allNamespaces, ns, list(ns), age);
  }

  /** podsCmd.Run once the namespace is chosen and the list call has
      answered: the error line, the "No pods found" line, or the table. */
  method PrintPods(allNamespaces: bool, ns: string, pods: Result<seq<Pod>, string>, age: Pod -> string)
    returns (out: ListingOutput)
    ensures out == Render("pods", allNamespaces, ns, pods, Header(allNamespaces), RowOf(allNamespaces, age))
  {
    if pods.Err? {
      return ListFailed("Error listing pods: " + pods.error);
    }
    var items := pods.value;
    if |items| == 0 {
      return NoneFound(NoneFoundLine("pods", allNamespaces, ns));
    }

    var header := Header(allNamespaces);
    var rows := PodRows(allNamespaces, items, age);
    RenderTable("pods", allNamespaces, ns, items, header, RowOf(allNamespaces, age), rows);
    out := Table(header, rows);
  }
}

/** What the three listing commands (services, pods, deployments) share:
    their flags, the choice of namespace to query, and the shape of what
    they print. A table is a header and rows, each a sequence of fields;
    tabwriter's padding is not modelled. */
module Listing {
  import opened Wrappers
  import opened KubeConfig

  /** `--namespace/-n` and `--all-namespaces/-A`, both defaulting to empty/false. */
  datatype Flags = Flags(namespace: string, allNamespaces: bool)

  /** What a listing command prints, and so its exit status. */
  datatype ListingOutput =
    | ClientFailed(error: ClientError)   // "Error creating Kubernetes client: ...", exit 1
    | ListFailed(line: string)           // "Error listing <kind>: <error>", exit 1
    | NoneFound(line: string)            // one message line, no table, exit 0
    | Table(header: seq<string>, rows: seq<seq<string>>)

  function ExitCode(out: ListingOutput): int
  {
    if out.ClientFailed? || out.ListFailed? then 1 else 0
  }

  /** The namespace a listing command queries: "" (every namespace) under
      --all-namespaces, whatever --namespace says; otherwise a non-empty
      --namespace; otherwise the kubeconfig's current namespace. */
  function NamespaceScope(flags: Flags, env: Env, files: Files): (ns: string)
    ensures flags.allNamespaces ==> ns == ""
    ensures !flags.allNamespaces && flags.namespace != "" ==> ns == flags.namespace
    ensures !flags.allNamespaces && flags.namespace == "" ==> ns == CurrentNamespaceOf(env, files)
    ensures ns == "" <==> flags.allNamespaces
  {
    if flags.allNamespaces then ""
    else if flags.namespace != "" then flags.namespace
    else CurrentNamespaceOf(env, files)
  }

  /** The if/else assignment of `ns` each listing command performs; the
      kubeconfig is read only in the last branch. */
  method ChooseNamespace(flags: Flags, env: Env, files: Files) returns (ns: string)
    ensures ns == NamespaceScope(flags, env, files)
  {
    if flags.allNamespaces {
      ns := "";
    } else if flags.namespace != "" {
      ns := flags.namespace;
    } else {
      ns := GetCurrentNamespace(env, files);
    }
  }

  /** The message printed instead of a table when nothing was found. */
  function NoneFoundLine(kind: string, allNamespaces: bool, ns: string): string
  {
    if allNamespaces then "No " + kind + " found in any namespace"
    else "No " + kind + " found in namespace '" + ns + "'"
  }

  /** What a listing command prints once the cluster has answered the list
      call for `ns`: the error line, the single "No ... found" line for an
      empty list, or the header and one row per listed object, in list order. */
  function Render<T>(kind: string, allNamespaces: bool, ns: string, listed: Result<seq<T>, string>,
                     header: seq<string>, rowOf: T -> seq<string>): (out: ListingOutput)
    ensures listed.Err? <==> out.ListFailed?
    ensures listed.Err? ==> out.line == "Error listing " + kind + ": " + listed.error
    ensures listed == Ok([]) <==> out.NoneFound?
    ensures out.NoneFound? ==> out.line == NoneFoundLine(kind, allNamespaces, ns)
    ensures out.Table? ==>
      listed.Ok? && |listed.value| > 0 && out.header == header && |out.rows| == |listed.value|
      && forall i :: 0 <= i < |out.rows| ==> out.rows[i] == rowOf(listed.value[i])
    ensures !out.ClientFailed? && ExitCode(out) == (if listed.Err? then 1 else 0)
  {
    match listed
    case Err(e) => ListFailed("Error listing " + kind + ": " + e)
    case Ok(items) =>
      if |items| == 0 then NoneFound(NoneFoundLine(kind, allNamespaces, ns))
      else Table(header, seq(|items|, i requires 0 <= i < |items| => rowOf(items[i])))
  }

  /** A listing method's accumulated rows are the table Render describes. */
  lemma RenderTable<T>(kind: string, allNamespaces: bool, ns: string, items: seq<T>,
                       header: seq<string>, rowOf: T -> seq<string>, rows: seq<seq<string>>)
    requires |items| > 0 && |rows| == |items|
    requires forall k :: 0 <= k < |items| ==> rows[k] == rowOf(items[k])
    ensures Render(kind, allNamespaces, ns, Ok(items), header, rowOf) == Table(header, rows)
  {
    assert rows == seq(|items|, i requires 0 <= i < |items| => rowOf(items[i]));
  }
}

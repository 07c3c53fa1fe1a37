# k8s-controller: the decision and formatting rules, in Dafny

k8s-controller is a set of small Kubernetes command-line demos written in Go
with cobra, client-go and controller-runtime. This project models their
deterministic parts and proves properties of them:

- the listing commands `services`, `pods` and `deployments`:
  - which namespace they query;
  - what they print for a failed or empty list;
  - the EXTERNAL-IP, PORT(S), READY, RESTARTS, UP-TO-DATE and AVAILABLE columns;
  - how header and rows line up;
- the kubeconfig path and the current-namespace fallback shared by those commands;
- the pflag demo's log-level resolution, logger prefix and severity-filtered demo messages;
- the Deployment reconciler's outcome rule and its `getImage` helper;
- the JSON API's `/deployments` handler.

Everything the programs read from outside becomes an input:

- the cluster's list call, as `list: string -> Result<seq<T>, string>`, where the argument is the namespace and "" means all namespaces;
- the object fetched by the reconciler;
- the informer's store, as a sequence;
- the process environment, as a map in which a missing variable reads as "";
- the kubeconfig files that load successfully, as a map from path to parsed file;
- whether in-cluster configuration is available, as a boolean;
- the AGE text of each object, as a function.

A printed table is a header and rows, each a sequence of fields.

Files:

- `wrappers.dfy`: `Option` and `Result`.
- `format.dfy`: the Go library behaviour the commands rely on (int32 wrap-around, `%d`, `strings.Join`, ASCII case mapping), and the model's own readers for printed fields (`Split`, `Cut`, `ParseNat`, `ParseInt`, `ParseFraction`), which exist only to state the read-back lemmas; the commands themselves call none of them.
- `workloads.dfy`: the fields of Service, Pod and Deployment that are read.
- `kubeconfig.dfy`: `cobra-cli/cmd/k8s.go`.
- `listing.dfy`: the flags and output shape shared by the three listing commands.
- `services.dfy`, `pods.dfy`, `deployments.dfy`: the three listing commands.
- `loglevels.dfy`: `pflag/cmd/root.go`.
- `controller.dfy`: `cmd/controller.go`.
- `api.dfy`: `cmd/api.go`.

The loops of the source are methods proved against specification functions.
The package-level state of the pflag demo is the class `LogLevels.PflagDemo`.

## Model

| member | source | states |
|---|---|---|
| Format.Wrap32 | cobra-cli/cmd/pods.go:65 | the int32 value stored for a mathematical value is congruent to it modulo 2^32 and equals it when it fits |
| Format.WrapAdd | cobra-cli/cmd/pods.go:71 | adding to an int32 accumulator one step at a time gives the wrapped exact sum |
| Format.SplitJoin | cmd/services.go:75 | a non-empty list joined with a separator that no part contains splits back into the same list |
| Format.NatToString | cobra-cli/cmd/pods.go:77-79 | the decimal digits of a natural number, non-empty, without a leading zero unless the number is 0 |
| Format.IntToString | cobra-cli/cmd/pods.go:77-79 | `%d` output is non-empty and consists of digits and '-' only |
| Format.ParseIntToString | cmd/deployments.go:68-74 | `%d` output reads back as the integer printed |
| Format.FractionRoundTrip | cobra-cli/cmd/pods.go:77-83 | the `%d/%d` text reads back as the two integers printed |
| Format.ToLowerIdempotent | pflag/cmd/root.go:43 | a lower-cased string has no upper-case letter and lower-casing it again changes nothing |
| KubeConfig.HomeDir | cobra-cli/cmd/k8s.go:44-49 | $HOME when non-empty, otherwise $USERPROFILE; empty exactly when both are empty |
| KubeConfig.KubeconfigPath | cobra-cli/cmd/k8s.go:53-60 | a non-empty $KUBECONFIG wins; otherwise <home>/.kube/config when a home is known; empty exactly when all three variables are empty |
| KubeConfig.NamespaceOf | cobra-cli/cmd/k8s.go:62-74 | never empty; anything but "default" is the current context's namespace; a set namespace of an existing current context is returned |
| KubeConfig.CurrentNamespaceOf | cobra-cli/cmd/k8s.go:52-75 | never empty, and "default" whenever the kubeconfig cannot be loaded |
| KubeConfig.GetCurrentNamespace | cobra-cli/cmd/k8s.go:52-75 | building the path step by step and returning early gives CurrentNamespaceOf, which is never empty |
| KubeConfig.ConfigSource | cobra-cli/cmd/k8s.go:14-33 | in-cluster configuration whenever available; otherwise the file at KubeconfigPath; an error exactly when neither is available |
| KubeConfig.GetKubernetesClient | cobra-cli/cmd/k8s.go:14-33 | the step-by-step path choice yields ConfigSource |
| KubeConfig.KubeconfigOverridesHome | cobra-cli/cmd/k8s.go:58-60 | with $KUBECONFIG set, $HOME and $USERPROFILE cannot change the current namespace |
| Listing.NamespaceScope | cmd/services.go:28-35 | "" under --all-namespaces, whatever --namespace says; else a non-empty --namespace; else the kubeconfig namespace; "" exactly under --all-namespaces |
| Listing.ChooseNamespace | cobra-cli/cmd/pods.go:30-37 | the if/else assignment of `ns` computes NamespaceScope |
| Listing.Render | cmd/services.go:37-58 | a list error exactly gives "Error listing <kind>: <error>" with exit 1; an empty list exactly gives the one "No <kind> found" line and no table; otherwise the header and one row per object, in list order |
| Listing.NoneFoundLine | cmd/services.go:43-50 | the line for an empty list: "in any namespace" under --all-namespaces, else the queried namespace; by Render it is printed exactly for an empty list, with exit 0 and no table |
| Services.Contribution | cmd/services.go:68-72 | an ingress entry contributes its IP when set, else its hostname when set, else nothing |
| Services.ExternalIPsOf | cmd/services.go:64-79 | the EXTERNAL-IP field; by ExternalIPsListsSources it splits back into the ingress contributions or, without ingress, into Spec.ExternalIPs, and is "<none>" otherwise; by ExternalIPsIgnoreSpecWhenIngress Spec.ExternalIPs are ignored once there is ingress |
| Services.IngressAddresses | cmd/services.go:66-73 | the ingress loop collects exactly the entries' contributions in ingress order |
| Services.ContributionsAppend | cmd/services.go:67-73 | contributions of a concatenation are the concatenated contributions: each entry is judged alone and order is kept |
| Services.ContributionsAllIPs | cmd/services.go:67-69 | when every entry has an IP, the contributions are those IPs, one per entry, in order |
| Services.ExternalIPs | cmd/services.go:64-79 | the computation of `externalIPs` yields ExternalIPsOf |
| Services.ExternalIPsIgnoreSpecWhenIngress | cmd/services.go:64-79 | with at least one ingress entry, Spec.ExternalIPs make no difference to EXTERNAL-IP |
| Services.ExternalIPsListsSources | cmd/services.go:64-79 | EXTERNAL-IP splits at "," into the contributions, or into Spec.ExternalIPs when there is no ingress; it is "<none>" when ingress contributes nothing or neither source is set |
| Services.PortEntry | cmd/services.go:84-88 | one port's text, "port:nodePort/protocol" or "port/protocol"; by PortEntryRoundTrip it reads back as the port, the node port (0 when absent) and the protocol |
| Services.PortsOf | cmd/services.go:82-90 | the PORT(S) field; by PortsListsEntries it splits into one PortEntry per port in spec order |
| Services.FormatPorts | cmd/services.go:82-90 | the ports loop and join yield PortsOf |
| Services.PortEntryRoundTrip | cmd/services.go:84-88 | a port entry reads back as port, node port (0 when absent) and protocol |
| Services.PortsListsEntries | cmd/services.go:82-90 | PORT(S) splits at "," into one entry per port in spec order, and is "" without ports |
| Services.Row | cmd/services.go:92-100 | the row printed for one Service; by RowMatchesHeader each field sits under its own column's title, and by NamespaceColumnFirst --all-namespaces only prepends the namespace |
| Services.RowMatchesHeader | cmd/services.go:54-100 | header and row have one field per column, 7 with --all-namespaces and 6 without, each field under its column's title |
| Services.NamespaceColumnFirst | cmd/services.go:92-100 | --all-namespaces only prepends NAMESPACE and the Service's namespace |
| Services.TitlesDistinct | cmd/services.go:54-58 | no two columns share a title |
| Services.ServiceRow | cmd/services.go:61-100 | the loop body lays out Row |
| Services.ServiceRows | cmd/services.go:60-101 | one row per listed Service, in list order |
| Services.ListServices | cmd/services.go:21-103 | a client error is reported as such; otherwise the output is Render over the chosen namespace's list |
| Services.PrintServices | cmd/services.go:37-102 | after the list call the output is Render of its answer |
| Pods.CountReady | cobra-cli/cmd/pods.go:63-70 | the ready count never exceeds the number of container statuses |
| Pods.CountReadyExtremes | cobra-cli/cmd/pods.go:63-70 | the ready count equals the total exactly when all containers are ready, and is 0 exactly when none is |
| Pods.RestartTotal | cobra-cli/cmd/pods.go:65-71 | the RESTARTS value, the restart counts summed in an int32; by RestartsExact it is the exact sum whenever the counts are non-negative and their sum fits in int32 |
| Pods.ContainerCounts | cobra-cli/cmd/pods.go:63-72 | the counting loop yields CountReady, the number of statuses and the int32-accumulated restart total |
| Pods.RestartsExact | cobra-cli/cmd/pods.go:65-71 | with non-negative restart counts whose sum fits in int32, RESTARTS is that sum |
| Pods.Row | cobra-cli/cmd/pods.go:76-84 | the row printed for one Pod; by RowMatchesHeader each field sits under its own column's title, and by ReadyAndRestartsReadBack READY and RESTARTS read back as ready/total and the int32 restart total |
| Pods.RowMatchesHeader | cobra-cli/cmd/pods.go:56-84 | header and row have one field per column, 6 with --all-namespaces and 5 without, each field under its column's title |
| Pods.NamespaceColumnFirst | cobra-cli/cmd/pods.go:76-84 | --all-namespaces only prepends NAMESPACE and the Pod's namespace |
| Pods.TitlesDistinct | cobra-cli/cmd/pods.go:56-60 | no two columns share a title |
| Pods.ReadyAndRestartsReadBack | cobra-cli/cmd/pods.go:77-83 | READY reads back as ready/total with 0 <= ready <= total, and RESTARTS as the int32 restart total |
| Pods.PodRow | cobra-cli/cmd/pods.go:62-84 | the loop body lays out Row |
| Pods.PodRows | cobra-cli/cmd/pods.go:62-85 | one row per listed Pod, in list order |
| Pods.ListPods | cobra-cli/cmd/pods.go:23-87 | a client error is reported as such; otherwise the output is Render over the chosen namespace's list |
| Pods.PrintPods | cobra-cli/cmd/pods.go:39-86 | after the list call the output is Render of its answer |
| Deployments.Row | cmd/deployments.go:60-75 | the row printed for one Deployment; by RowMatchesHeader each field sits under its own column's title, and by ReplicasReadBack READY, UP-TO-DATE and AVAILABLE read back as ready/desired, updated and available replicas |
| Deployments.RowMatchesHeader | cmd/deployments.go:53-75 | header and row have one field per column, 6 with --all-namespaces and 5 without, each field under its column's title |
| Deployments.NamespaceColumnFirst | cmd/deployments.go:67-75 | --all-namespaces only prepends NAMESPACE and the Deployment's namespace |
| Deployments.TitlesDistinct | cmd/deployments.go:53-57 | no two columns share a title |
| Deployments.ReplicasReadBack | cmd/deployments.go:62-74 | READY reads back as ready/desired replicas; UP-TO-DATE and AVAILABLE read back as the updated and available counts unchanged |
| Deployments.DeploymentRows | cmd/deployments.go:59-76 | one row per listed Deployment, in list order |
| Deployments.ListDeployments | cmd/deployments.go:20-78 | a client error is reported as such; otherwise the output is Render over the chosen namespace's list |
| Deployments.PrintDeployments | cmd/deployments.go:36-77 | after the list call the output is Render of its answer |
| LogLevels.ParseLevel | pflag/cmd/root.go:42-51 | a name denotes a level exactly when it is in validLevels, and that level has this name |
| LogLevels.ValidLevelsInOrder | pflag/cmd/root.go:42 | validLevels lists the four levels' names in increasing severity |
| LogLevels.Resolve | pflag/cmd/root.go:29-57 | --verbose with --quiet is an error; otherwise the level is accepted exactly when its lower-cased name is valid, else rejected with the message listing the valid levels |
| LogLevels.Requested | pflag/cmd/root.go:34-39 | the level name after the shortcut flags; by ShortcutsOverride --verbose yields debug and --quiet yields error whatever --log-level says |
| LogLevels.ShortcutsOverride | pflag/cmd/root.go:34-39 | --verbose gives debug and --quiet gives error, whatever --log-level says |
| LogLevels.ResolveIgnoresCase | pflag/cmd/root.go:43 | names that agree once lower-cased resolve alike |
| LogLevels.ExactlyValidAccepted | pflag/cmd/root.go:42-57 | without shortcut flags a level is chosen exactly when --log-level lower-cases to its name |
| LogLevels.UpperCaseAccepted | pflag/cmd/root.go:43-51 | the upper-case spelling of every level name is accepted |
| LogLevels.DefaultIsInfo | pflag/cmd/root.go:77 | with no flags the level is info |
| LogLevels.TraceRejected | pflag/cmd/root.go:53-56 | "trace" is rejected with the invalid-level message |
| LogLevels.IsValidLevel | pflag/cmd/root.go:45-51 | the scan with `break` finds the level exactly when it is in validLevels |
| LogLevels.PrefixFor | pflag/cmd/root.go:84-93 | a prefix is set exactly for the valid level names |
| LogLevels.PrefixIsUpperName | pflag/cmd/root.go:83-95 | each level's prefix is its upper-cased name in brackets |
| LogLevels.DemoMessages | pflag/cmd/root.go:102-117 | runDemo's switch; nothing is logged exactly for a name that is not a valid level, and by DemoFiltersBySeverity a valid level logs the messages of the levels at or above it |
| LogLevels.AtOrAboveIsSuffix | pflag/cmd/root.go:99-118 | the levels from a threshold onwards are exactly those at least as severe |
| LogLevels.DemoFiltersBySeverity | pflag/cmd/root.go:99-118 | runDemo logs the messages of the levels at or above the chosen one, in order: 4, 3, 2 or 1 of them, ending with the error message |
| LogLevels.PflagDemo.constructor | pflag/cmd/root.go:77-79 | the flag defaults: level "info", neither --verbose nor --quiet |
| LogLevels.PflagDemo.SetupLogging | pflag/cmd/root.go:83-96 | the prefix is set for a valid name and left alone otherwise; the announcement shows the upper-cased level |
| LogLevels.PflagDemo.RunDemo | pflag/cmd/root.go:99-118 | for a valid level, logs the messages of the levels at or above it, from least to most severe; for any other string, logs nothing |
| LogLevels.PflagDemo.Run | pflag/cmd/root.go:27-64 | on conflict it exits with nothing changed; otherwise the stored level is the lower-cased request, and it exits with Resolve's error or sets the prefix, prints the announcement and the demo banner and logs the demo messages |
| Controller.GetImage | cmd/controller.go:82-87 | the first container's image, or "unknown" without containers |
| Controller.GetImageIgnoresLaterContainers | cmd/controller.go:83-84 | containers after the first never change the image |
| Controller.UnknownOnlyWithoutImage | cmd/controller.go:82-87 | "unknown" appears only without containers or for a first image literally named so |
| Controller.Reconcile | cmd/controller.go:47-72 | never requeues; NotFound is a logged deletion without error; any other Get error is returned unchanged with nothing logged; a found object is logged with its replicas, ready count and image |
| Controller.ReconcileFoundIgnoresRequest | cmd/controller.go:62-71 | a found object's outcome does not depend on the request and is never an error |
| Controller.ReconcileSucceedsUnlessGetFails | cmd/controller.go:51-71 | the error is absent exactly when Get succeeded or reported NotFound, and no outcome requeues |
| Api.Projections | cmd/api.go:106-114 | one record per stored Deployment, in store order, copying name, namespace, desired and ready replicas |
| Api.ListDeploymentsHandler | cmd/api.go:98-119 | a non-GET method gets 405 "Method not allowed"; GET gets 200 application/json whose body decodes to the projections of the store, and is `null` exactly when the store is empty |

## Left out

- AGE columns: the elapsed time since creation depends on the wall clock, so each command takes the AGE text as an input function.
- tabwriter padding and alignment: rows are sequences of fields, not padded text.
- `filepath.Join(home, ".kube", "config")` is modelled as `home + "/.kube/config"`; the path cleaning Go applies (duplicate or trailing slashes in $HOME) is not modelled.
- Case mapping is ASCII only: Go's `strings.ToLower`/`ToUpper` also map non-ASCII letters (for example U+0130 to "i"), which the model does not.
- `*Spec.Replicas` is dereferenced without a nil check in `cmd/deployments.go`, `cmd/controller.go` and `cmd/api.go`; the panic for a nil pointer is not modelled (replicas is always present).
- Library error texts: `KubeConfig.ClientError` carries only the kubeconfig path, not the text client-go produces, and the "Error creating Kubernetes client" line is represented by that value.
- `clientcmd.BuildConfigFromFlags` and `clientcmd.LoadFromFile` are both modelled as "the path is a file that loads"; validation failures of a loaded file and client-go's own fallbacks for an empty path are not modelled. `kubernetes.NewForConfig` is assumed to succeed.
- The reconciler's log timestamps and zap formatting, the standard logger's date and time before each demo message, and the trailing newlines of printed lines.
- JSON text encoding: the body is the encoded value (`null` or an array of records), not its bytes; `http.Error`'s extra `X-Content-Type-Options` header is not modelled.
- `cmd/manager.go`, `cmd/list.go`, `cmd/server.go`, `cmd/root.go` and `cmd/informer.go` are not part of this model: they configure and start library machinery or depend on the clock and floating point.
- The informer, cache, work-queue, reconcile dispatch and leader election run inside client-go and controller-runtime; only the handler's and the reconciler's decisions on their results are modelled.
- `runController`, `runAPIServer` and `setupInformer` (kubeconfig path from a flag or the home directory, manager and informer start-up) are configuration passed to libraries and are not modelled.
- Exit statuses are part of the result values (`Listing.ExitCode`, `LogLevels.RunOutcome`); the process itself is not terminated.

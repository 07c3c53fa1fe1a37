/** Locating the kubeconfig file, choosing the client configuration and
    reading the current namespace (cobra-cli/cmd/k8s.go).

    The process environment is a map from variable names to values; a
    missing variable reads as "" as with os.Getenv. The file system is the
    map `files` from paths to the kubeconfig files found there that load
    successfully; a path outside it fails to load. */
module KubeConfig {
  import opened Wrappers

  type Env = map<string, string>

  /** os.Getenv: the value, or "" when the variable is not set. */
  function Getenv(env: Env, key: string): string
  {
    if key in env then env[key] else ""
  }

  /** A kubeconfig context; only its namespace matters here. */
  datatype Context = Context(namespace: string)

  /** A loaded kubeconfig: the current context's name and the contexts by name. */
  datatype Config = Config(currentContext: string, contexts: map<string, Context>)

  type Files = map<string, Config>

  /** clientcmd.LoadFromFile: the empty path names no file. */
  function Load(files: Files, path: string): Option<Config>
  {
    if path != "" && path in files then Some(files[path]) else None
  }

  /** homeDir: $HOME when set and non-empty, otherwise $USERPROFILE. */
  function HomeDir(env: Env): (home: string)
    ensures Getenv(env, "HOME") != "" ==> home == Getenv(env, "HOME")
    ensures Getenv(env, "HOME") == "" ==> home == Getenv(env, "USERPROFILE")
    ensures home == "" <==> Getenv(env, "HOME") == "" && Getenv(env, "USERPROFILE") == ""
  {
    var h := Getenv(env, "HOME");
    if h != "" then h else Getenv(env, "USERPROFILE")
  }

  /** filepath.Join(home, ".kube", "config"), without path cleaning. */
  function DefaultKubeconfig(home: string): string
  {
    home + "/.kube/config"
  }

  /** The kubeconfig path both getKubernetesClient and getCurrentNamespace
      use: a non-empty $KUBECONFIG wins; otherwise <home>/.kube/config when
      a home directory is known; otherwise "" (no file). */
  function KubeconfigPath(env: Env): (path: string)
    ensures Getenv(env, "KUBECONFIG") != "" ==> path == Getenv(env, "KUBECONFIG")
    ensures Getenv(env, "KUBECONFIG") == "" && HomeDir(env) != "" ==> path == DefaultKubeconfig(HomeDir(env))
    ensures path == "" <==>
      Getenv(env, "KUBECONFIG") == "" && Getenv(env, "HOME") == "" && Getenv(env, "USERPROFILE") == ""
  {
    var kubeconfigEnv := Getenv(env, "KUBECONFIG");
    if kubeconfigEnv != "" then kubeconfigEnv
    else if HomeDir(env) != "" then DefaultKubeconfig(HomeDir(env))
    else ""
  }

  /** The namespace getCurrentNamespace reports for a load outcome: the
      current context's namespace when the file loaded, the context exists
      and its namespace is set; "default" in every other case. */
  function NamespaceOf(loaded: Option<Config>): (ns: string)
    ensures ns != ""
    ensures ns != "default" ==>
      loaded.Some? && loaded.value.currentContext in loaded.value.contexts
      && loaded.value.contexts[loaded.value.currentContext].namespace == ns
    ensures (loaded.Some? && loaded.value.currentContext in loaded.value.contexts
             && loaded.value.contexts[loaded.value.currentContext].namespace != "") ==>
              ns == loaded.value.contexts[loaded.value.currentContext].namespace
  {
    match loaded
    case None => "default"
    case Some(config) =>
      if config.currentContext in config.contexts
        && config.contexts[config.currentContext].namespace != ""
      then config.contexts[config.currentContext].namespace
      else "default"
  }

  /** The namespace getCurrentNamespace returns in this environment. */
  function CurrentNamespaceOf(env: Env, files: Files): (ns: string)
    ensures ns != ""
    ensures Load(files, KubeconfigPath(env)).None? ==> ns == "default"
  {
    NamespaceOf(Load(files, KubeconfigPath(env)))
  }

  /** getCurrentNamespace: builds the kubeconfig path step by step, loads
      it, and falls back to "default" at each early return. */
  method GetCurrentNamespace(env: Env, files: Files) returns (ns: string)
    ensures ns == CurrentNamespaceOf(env, files)
    ensures ns != ""
  {
    var kubeconfig := "";
    var home := HomeDir(env);
    if home != "" {
      kubeconfig := DefaultKubeconfig(home);
    }
    var kubeconfigEnv := Getenv(env, "KUBECONFIG");
    if kubeconfigEnv != "" {
      kubeconfig := kubeconfigEnv;
    }

    var config := Load(files, kubeconfig);
    if config.None? {
      return "default";
    }
    var currentContext := config.value.currentContext;
    if currentContext in config.value.contexts {
      var context := config.value.contexts[currentContext];
      if context.namespace != "" {
        return context.namespace;
      }
    }
    return "default";
  }

  /** Where the client configuration came from. */
  datatype ClientConfig = InCluster | FromKubeconfig(path: string, config: Config)

  /** getKubernetesClient's error: the kubeconfig at this path could not be
      turned into a configuration. */
  datatype ClientError = ConfigUnavailable(path: string)

  /** The configuration getKubernetesClient ends up with: the in-cluster
      configuration when the process runs in a pod, otherwise the file at
      KubeconfigPath, otherwise an error naming that path. */
  function ConfigSource(inCluster: bool, env: Env, files: Files): (r: Result<ClientConfig, ClientError>)
    ensures inCluster ==> r == Ok(InCluster)
    ensures !inCluster ==> r != Ok(InCluster)
    ensures r.Ok? && r.value.FromKubeconfig? ==>
      r.value.path == KubeconfigPath(env) && Load(files, r.value.path) == Some(r.value.config)
    ensures r.Err? <==> !inCluster && Load(files, KubeconfigPath(env)).None?
  {
    if inCluster then Ok(InCluster)
    else match Load(files, KubeconfigPath(env))
      case None => Err(ConfigUnavailable(KubeconfigPath(env)))
      case Some(config) => Ok(FromKubeconfig(KubeconfigPath(env), config))
  }

  /** getKubernetesClient: in-cluster configuration first; only when that
      fails is the kubeconfig path built and the file loaded. */
  method GetKubernetesClient(inCluster: bool, env: Env, files: Files)
    returns (r: Result<ClientConfig, ClientError>)
    ensures r == ConfigSource(inCluster, env, files)
  {
    if inCluster {
      return Ok(InCluster);
    }
    var kubeconfig := "";
    var home := HomeDir(env);
    if home != "" {
      kubeconfig := DefaultKubeconfig(home);
    }
    var kubeconfigEnv := Getenv(env, "KUBECONFIG");
    if kubeconfigEnv != "" {
      kubeconfig := kubeconfigEnv;
    }

    var config := Load(files, kubeconfig);
    if config.None? {
      return Err(ConfigUnavailable(kubeconfig));
    }
    return Ok(FromKubeconfig(kubeconfig, config.value));
  }

  /** A set $KUBECONFIG makes $HOME and $USERPROFILE irrelevant to the
      current namespace. */
  lemma KubeconfigOverridesHome(env: Env, files: Files, home: string, profile: string)
    requires Getenv(env, "KUBECONFIG") != ""
    ensures CurrentNamespaceOf(env, files)
         == CurrentNamespaceOf(env["HOME" := home]["USERPROFILE" := profile], files)
  {
    var env' := env["HOME" := home]["USERPROFILE" := profile];
    assert Getenv(env', "KUBECONFIG") == Getenv(env, "KUBECONFIG");
  }
}

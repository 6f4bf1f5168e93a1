/** cmd/pods.go, cmd/configmaps.go, cmd/secrets.go and cmd/resources.go: the
    decision logic of the resource commands. Each RunE checks its flags, builds
    a searcher and picks one search scope; the result is the list of
    occurrences the command would print, or the error it would return.

    SearchAllNamespaces is called by the pods, configmaps and secrets commands
    but is not defined in internal/resource/resource_searcher.go; it is a
    parameter here, an oracle from the searcher and pattern to its answer. */
module SearchCommands {
  import opened Text
  import opened GoErrors
  import opened ResourceSearcher

  type Occurrences = Result<seq<Occurrence>>

  /** One of the two flag-check errors. */
  predicate FlagError(e: Error) {
    e == Plain("pattern is required") || e == Plain("--all-namespaces and --namespace cannot be used together")
  }

  /** The searcher method a command calls. */
  datatype Scope = AllNamespaces | InNamespace(namespace: string) | DefaultScope

  /** fmt.Errorf(prefix + "%v", err) on the error path; a success passes through. */
  function WrapError(prefix: string, r: Occurrences): (w: Occurrences)
    ensures r.Ok? ==> w == r
    ensures r.Err? ==> w == Err(Errorf(prefix, r.error))
  {
    match r
    case Ok(_) => r
    case Err(e) => Err(Errorf(prefix, e))
  }

  /** The flag checks of the pods, configmaps and secrets commands, in their
      order: the pattern first, then the namespace / all-namespaces conflict;
      then all-namespaces wins over an explicit namespace over the default. */
  function ChooseScope(pattern: string, namespace: string, allNamespaces: bool): (r: Result<Scope>)
    ensures r == Err(Plain("pattern is required")) <==> pattern == ""
    ensures r == Err(Plain("--all-namespaces and --namespace cannot be used together")) <==>
      pattern != "" && allNamespaces && namespace != ""
    ensures r.Ok? <==> pattern != "" && !(allNamespaces && namespace != "")
    ensures r.Ok? ==> (r.value == AllNamespaces <==> allNamespaces)
    ensures r.Ok? ==> (r.value == InNamespace(namespace) <==> !allNamespaces && namespace != "")
    ensures r.Ok? ==> (r.value == DefaultScope <==> !allNamespaces && namespace == "")
    ensures r.Ok? && r.value.InNamespace? ==> r.value.namespace == namespace
  {
    if pattern == "" then Err(Plain("pattern is required"))
    else if allNamespaces && namespace != "" then Err(Plain("--all-namespaces and --namespace cannot be used together"))
    else if allNamespaces then Ok(AllNamespaces)
    else if namespace != "" then Ok(InNamespace(namespace))
    else Ok(DefaultScope)
  }

  /** The call made for a scope: SearchAllNamespaces, Search(ns) or
      SearchWithoutNamespace, whose answers the resource searcher defines. */
  function SearchIn(s: Searcher, scope: Scope, pattern: string, searchAll: (Searcher, string) -> Occurrences): Occurrences {
    match scope
    case AllNamespaces => searchAll(s, pattern)
    case InNamespace(ns) => SearchResult(s, ns, pattern)
    case DefaultScope => SearchResult(s, DefaultNamespace(s.config), pattern)
  }

  /** RunE of a typed resource command for `resourceType` ("pods",
      "configmaps" or "secrets"). No client is built when a flag check fails;
      otherwise the searcher for `resourceType` answers in the chosen scope and
      its error is reported as "failed to search <resourceType>: ...". */
  function RunTyped(env: Environment, resourceType: string, namespace: string, pattern: string, allNamespaces: bool,
                    searchAll: (Searcher, string) -> Occurrences): (r: Occurrences)
    ensures ChooseScope(pattern, namespace, allNamespaces).Err? ==>
      r == Err(ChooseScope(pattern, namespace, allNamespaces).error)
    ensures ChooseScope(pattern, namespace, allNamespaces).Ok? && Connect(env).Err? ==>
      r == Err(Errorf("failed to create resource searcher: ", Connect(env).error))
    ensures ChooseScope(pattern, namespace, allNamespaces).Ok? && Connect(env).Ok? ==>
      var s := Connect(env).value.(resourceType := resourceType, kind := resourceType);
      r == WrapError("failed to search " + resourceType + ": ",
                     if allNamespaces then searchAll(s, pattern)
                     else SearchResult(s, if namespace != "" then namespace else DefaultNamespace(s.config), pattern))
  {
    match ChooseScope(pattern, namespace, allNamespaces)
    case Err(e) => Err(e)
    case Ok(scope) =>
      match NewResourceSearcher(env, resourceType)
      case Err(e) => Err(Errorf("failed to create resource searcher: ", e))
      case Ok(s) => WrapError("failed to search " + resourceType + ": ", SearchIn(s, scope, pattern, searchAll))
  }

  /** What a typed command for `resourceType` may answer: every error is a
      flag error or carries one of the two prefixes; every success went
      through the flag checks and the client bootstrap, and outside
      all-namespaces it is the searcher's own answer. */
  predicate TypedOutcome(env: Environment, resourceType: string, namespace: string, pattern: string, allNamespaces: bool,
                         r: Occurrences) {
    (r.Err? ==>
       (FlagError(r.error)
        || HasPrefix(Message(r.error), "failed to create resource searcher: ")
        || HasPrefix(Message(r.error), "failed to search " + resourceType + ": ")))
    && (r.Ok? ==> ChooseScope(pattern, namespace, allNamespaces).Ok? && Connect(env).Ok?)
    && (r.Ok? && !allNamespaces ==>
          r == SearchResult(Connect(env).value.(resourceType := resourceType, kind := resourceType),
                            if namespace != "" then namespace else DefaultNamespace(Some(env.config.value)), pattern))
  }

  lemma TypedOutcomeShape(env: Environment, resourceType: string, namespace: string, pattern: string, allNamespaces: bool,
                          searchAll: (Searcher, string) -> Occurrences)
    ensures TypedOutcome(env, resourceType, namespace, pattern, allNamespaces,
                         RunTyped(env, resourceType, namespace, pattern, allNamespaces, searchAll))
  {
    var r := RunTyped(env, resourceType, namespace, pattern, allNamespaces, searchAll);
    if r.Err? && ChooseScope(pattern, namespace, allNamespaces).Ok? {
      var p := if Connect(env).Err? then "failed to create resource searcher: " else "failed to search " + resourceType + ": ";
      assert Message(r.error)[..|p|] == p;
    }
  }

  /** cmd/pods.go RunE. */
  function RunPods(env: Environment, namespace: string, pattern: string, allNamespaces: bool,
                   searchAll: (Searcher, string) -> Occurrences): (r: Occurrences)
    ensures TypedOutcome(env, "pods", namespace, pattern, allNamespaces, r)
  {
    TypedOutcomeShape(env, "pods", namespace, pattern, allNamespaces, searchAll);
    RunTyped(env, "pods", namespace, pattern, allNamespaces, searchAll)
  }

  /** cmd/configmaps.go RunE. */
  function RunConfigMaps(env: Environment, namespace: string, pattern: string, allNamespaces: bool,
                         searchAll: (Searcher, string) -> Occurrences): (r: Occurrences)
    ensures TypedOutcome(env, "configmaps", namespace, pattern, allNamespaces, r)
  {
    TypedOutcomeShape(env, "configmaps", namespace, pattern, allNamespaces, searchAll);
    RunTyped(env, "configmaps", namespace, pattern, allNamespaces, searchAll)
  }

  /** cmd/secrets.go RunE. */
  function RunSecrets(env: Environment, namespace: string, pattern: string, allNamespaces: bool,
                      searchAll: (Searcher, string) -> Occurrences): (r: Occurrences)
    ensures TypedOutcome(env, "secrets", namespace, pattern, allNamespaces, r)
  {
    TypedOutcomeShape(env, "secrets", namespace, pattern, allNamespaces, searchAll);
    RunTyped(env, "secrets", namespace, pattern, allNamespaces, searchAll)
  }

  /** A flag error is returned whatever the cluster would have answered: the
      checks come before any client is built. */
  lemma FlagErrorsIgnoreCluster(env1: Environment, env2: Environment, resourceType: string, namespace: string, pattern: string,
                                allNamespaces: bool, searchAll1: (Searcher, string) -> Occurrences, searchAll2: (Searcher, string) -> Occurrences)
    requires pattern == "" || (allNamespaces && namespace != "")
    ensures RunTyped(env1, resourceType, namespace, pattern, allNamespaces, searchAll1)
         == RunTyped(env2, resourceType, namespace, pattern, allNamespaces, searchAll2)
    ensures RunTyped(env1, resourceType, namespace, pattern, allNamespaces, searchAll1).Err?
  {
  }

  /** Leaving out --namespace is the same as naming the kubeconfig's default
      namespace explicitly. */
  lemma DefaultScopeIsDefaultNamespace(env: Environment, resourceType: string, pattern: string,
                                       searchAll: (Searcher, string) -> Occurrences)
    requires Connect(env).Ok?
    ensures RunTyped(env, resourceType, "", pattern, false, searchAll)
         == RunTyped(env, resourceType, DefaultNamespace(Some(env.config.value)), pattern, false, searchAll)
  {
  }

  /** Every occurrence a successful namespace-scoped run reports comes from a
      resource the listing named, and carries an empty namespace. */
  lemma ScopedOccurrencesBelong(env: Environment, resourceType: string, namespace: string, pattern: string,
                                searchAll: (Searcher, string) -> Occurrences)
    requires RunTyped(env, resourceType, namespace, pattern, false, searchAll).Ok?
    ensures var s := Connect(env).value.(resourceType := resourceType, kind := resourceType);
      var ns := if namespace != "" then namespace else DefaultNamespace(s.config);
      GenericNames(s, ns).Ok?
      && forall o :: o in RunTyped(env, resourceType, namespace, pattern, false, searchAll).value ==>
           o.resource in GenericNames(s, ns).value && o.namespace == ""
  {
    var s := Connect(env).value.(resourceType := resourceType, kind := resourceType);
    var ns := if namespace != "" then namespace else DefaultNamespace(s.config);
    CollectedBelongs(s, ns, GenericNames(s, ns).value, pattern);
  }

  // ---------------------------------------------------------------------
  // cmd/resources.go
  // ---------------------------------------------------------------------

  /** RunE of the resources command: an explicit --api-version selects the
      generic searcher, otherwise the auto-discovery one; a namespace selects
      Search, otherwise SearchWithoutNamespace. There is no pattern check and
      no all-namespaces scope. */
  function RunResources(env: Environment, namespace: string, pattern: string, apiVersion: string, kind: string): (r: Occurrences)
    ensures Connect(env).Err? && apiVersion != "" ==>
      r == Err(Errorf("failed to create generic resource searcher: ", Connect(env).error))
    ensures Connect(env).Err? && apiVersion == "" ==>
      r == Err(Errorf("failed to create auto-discovery resource searcher: ", Connect(env).error))
    ensures Connect(env).Ok? ==>
      var s := Connect(env).value.(apiVersion := apiVersion, kind := kind);
      r == WrapError("failed to search resources: ",
                     SearchResult(s, if namespace != "" then namespace else DefaultNamespace(s.config), pattern))
  {
    var created :=
      if apiVersion != "" then NewGenericResourceSearcher(env, apiVersion, kind)
      else NewAutoDiscoveryResourceSearcher(env, kind);
    match created
    case Err(e) =>
      if apiVersion != "" then Err(Errorf("failed to create generic resource searcher: ", e))
      else Err(Errorf("failed to create auto-discovery resource searcher: ", e))
    case Ok(s) =>
      var scope := if namespace != "" then InNamespace(namespace) else DefaultScope;
      WrapError("failed to search resources: ", SearchIn(s, scope, pattern, (_, _) => Err(Plain(""))))
  }

  /** The searcher's apiVersion plays no part in Search's answer. */
  lemma {:induction false} CollectedIgnoresApiVersion(s: Searcher, apiVersion: string, ns: string, names: seq<string>, pattern: string)
    ensures Collected(s.(apiVersion := apiVersion), ns, names, pattern) == Collected(s, ns, names, pattern)
    decreases |names|
  {
    if |names| > 0 {
      CollectedIgnoresApiVersion(s, apiVersion, ns, names[..|names| - 1], pattern);
      assert GenericYAML(s.(apiVersion := apiVersion), ns, names[|names| - 1]) == GenericYAML(s, ns, names[|names| - 1]);
    }
  }

  /** Once the clients are built, the --api-version flag changes only which
      constructor's error message could have been used: the search itself is
      the same with or without it. */
  lemma ApiVersionDoesNotChangeSearch(env: Environment, namespace: string, pattern: string, apiVersion: string, kind: string)
    requires Connect(env).Ok?
    ensures RunResources(env, namespace, pattern, apiVersion, kind) == RunResources(env, namespace, pattern, "", kind)
  {
    var s := Connect(env).value.(apiVersion := "", kind := kind);
    var ns := if namespace != "" then namespace else DefaultNamespace(s.config);
    assert GenericNames(s.(apiVersion := apiVersion), ns) == GenericNames(s, ns);
    if GenericNames(s, ns).Ok? {
      CollectedIgnoresApiVersion(s, apiVersion, ns, GenericNames(s, ns).value, pattern);
    }
    assert s.(apiVersion := apiVersion) == Connect(env).value.(apiVersion := apiVersion, kind := kind);
  }

  /** Unlike the typed commands, an empty pattern is searched, and it matches
      every line of every listed resource. */
  lemma ResourcesSearchEmptyPattern(env: Environment, namespace: string, apiVersion: string, kind: string)
    requires Connect(env).Ok?
    ensures var s := Connect(env).value.(apiVersion := apiVersion, kind := kind);
      RunResources(env, namespace, "", apiVersion, kind)
      == WrapError("failed to search resources: ",
                   SearchResult(s, if namespace != "" then namespace else DefaultNamespace(s.config), ""))
  {
  }
}

/** internal/resource/resource_searcher.go: the searcher behind the pods,
    configmaps, secrets and resources commands. It lists resource names through
    kubeGet (with a fixed chain of fallback lookups), fetches each resource's
    YAML, and greps it line by line ignoring case.

    Every cluster call is an oracle held in the searcher's value: kubeGet.Get is
    a total function from (kind, namespace) to a listing or an error, and the
    discovery client is a list of API groups plus a function from a group
    version to its resource list or an error. The searcher is never changed
    after construction, so it is a datatype and its methods take it as a
    parameter. */
module ResourceSearcher {
  import opened Text
  import opened GoErrors
  import opened LineMatch

  // ---------------------------------------------------------------------
  // Data model
  // ---------------------------------------------------------------------

  /** An object of a kubeGet listing: its metadata name and the outcome of
      serialising it (objectToYAML, which is not interpreted here). */
  datatype Item = Item(name: string, yaml: Result<string>)

  /** What kubeGet.Get(kind, namespace) returns. */
  datatype Listing = Listed(items: seq<Item>) | ListFailed(err: Error)

  datatype KubeGet = KubeGet(get: (string, string) -> Listing)

  datatype GroupVersion = GroupVersion(groupVersion: string, version: string)
  datatype APIGroup = APIGroup(name: string, versions: seq<GroupVersion>)
  /** A discovered resource: its plural name and its kind. */
  datatype APIResource = APIResource(name: string, kind: string)

  /** The discovery side of the clientset: ServerGroups and
      ServerResourcesForGroupVersion. */
  datatype Clientset = Clientset(serverGroups: Result<seq<APIGroup>>, resourcesFor: string -> Result<seq<APIResource>>)

  /** A loaded rest.Config, reduced to what kubeConfig.Namespace() reports. */
  datatype Config = Config(namespace: Result<string>)

  datatype DynamicClient = DynamicClient

  datatype Searcher = Searcher(
    resourceType: string,
    apiVersion: string,
    kind: string,
    resourceName: string,
    clientset: Option<Clientset>,
    dynamicClient: Option<DynamicClient>,
    config: Option<Config>,
    kubeGet: Option<KubeGet>)

  /** One matching line of one resource's YAML. */
  datatype Occurrence = Occurrence(resource: string, namespace: string, line: int, content: string)

  /** The outcomes of loading the kubeconfig and of creating each client from it. */
  datatype Environment = Environment(
    config: Result<Config>,
    clientset: Result<Clientset>,
    dynamicClient: Result<DynamicClient>,
    kubeGet: Result<KubeGet>)

  // ---------------------------------------------------------------------
  // Constructors
  // ---------------------------------------------------------------------

  /** The client bootstrap the three constructors share: the first step that
      fails decides the error, in the order config, clientset, dynamic client;
      a kubeGet failure is tolerated and leaves kubeGet nil. All string fields
      are still empty. */
  function Connect(env: Environment): (r: Result<Searcher>)
    ensures env.config.Err? ==> r == Err(Errorf("error creating Kubernetes config: ", env.config.error))
    ensures env.config.Ok? && env.clientset.Err? ==>
      r == Err(Errorf("error creating Kubernetes clientset: ", env.clientset.error))
    ensures env.config.Ok? && env.clientset.Ok? && env.dynamicClient.Err? ==>
      r == Err(Errorf("error creating dynamic client: ", env.dynamicClient.error))
    ensures r.Ok? <==> env.config.Ok? && env.clientset.Ok? && env.dynamicClient.Ok?
    ensures r.Ok? ==> r.value.clientset == Some(env.clientset.value) && r.value.config == Some(env.config.value)
    ensures r.Ok? ==> r.value.dynamicClient.Some? && (r.value.kubeGet.Some? <==> env.kubeGet.Ok?)
    ensures r.Ok? && env.kubeGet.Ok? ==> r.value.kubeGet == Some(env.kubeGet.value)
    ensures r.Ok? ==> r.value.resourceType == r.value.apiVersion == r.value.kind == r.value.resourceName == ""
  {
    if env.config.Err? then Err(Errorf("error creating Kubernetes config: ", env.config.error))
    else if env.clientset.Err? then Err(Errorf("error creating Kubernetes clientset: ", env.clientset.error))
    else if env.dynamicClient.Err? then Err(Errorf("error creating dynamic client: ", env.dynamicClient.error))
    else
      var kubeGet := if env.kubeGet.Ok? then Some(env.kubeGet.value) else None;
      Ok(Searcher("", "", "", "", Some(env.clientset.value), Some(env.dynamicClient.value), Some(env.config.value), kubeGet))
  }

  /** NewResourceSearcher: the kind to list is the resource type itself. */
  function NewResourceSearcher(env: Environment, resourceType: string): (r: Result<Searcher>)
    ensures r.Err? <==> Connect(env).Err?
    ensures r.Err? ==> r == Connect(env)
    ensures r.Ok? ==> r.value == Connect(env).value.(resourceType := resourceType, kind := resourceType)
  {
    match Connect(env)
    case Err(e) => Err(e)
    case Ok(s) => Ok(s.(resourceType := resourceType, kind := resourceType))
  }

  /** NewGenericResourceSearcher: an explicit API version and kind; the resource
      type stays empty. */
  function NewGenericResourceSearcher(env: Environment, apiVersion: string, kind: string): (r: Result<Searcher>)
    ensures r.Err? <==> Connect(env).Err?
    ensures r.Err? ==> r == Connect(env)
    ensures r.Ok? ==> r.value == Connect(env).value.(apiVersion := apiVersion, kind := kind)
  {
    match Connect(env)
    case Err(e) => Err(e)
    case Ok(s) => Ok(s.(apiVersion := apiVersion, kind := kind))
  }

  /** NewAutoDiscoveryResourceSearcher: only the kind is set. */
  function NewAutoDiscoveryResourceSearcher(env: Environment, kind: string): (r: Result<Searcher>)
    ensures r.Err? <==> Connect(env).Err?
    ensures r.Err? ==> r == Connect(env)
    ensures r.Ok? ==> r.value == Connect(env).value.(kind := kind)
  {
    match Connect(env)
    case Err(e) => Err(e)
    case Ok(s) => Ok(s.(kind := kind))
  }

  /** All three constructors fail on the same environments with the same error,
      and whatever they build has a clientset, a config and no resource name. */
  lemma ConstructorsAgree(env: Environment, resourceType: string, apiVersion: string, kind: string)
    ensures var a := NewResourceSearcher(env, resourceType);
      var b := NewGenericResourceSearcher(env, apiVersion, kind);
      var c := NewAutoDiscoveryResourceSearcher(env, kind);
      (a.Err? <==> b.Err?) && (b.Err? <==> c.Err?)
      && (a.Err? ==> a.error == b.error == c.error)
      && (a.Ok? ==> (a.value.clientset.Some? && b.value.clientset.Some? && c.value.clientset.Some?
                     && a.value.config.Some? && a.value.resourceName == b.value.resourceName == c.value.resourceName == ""
                     && a.value.kubeGet == b.value.kubeGet == c.value.kubeGet))
  {
  }

  // ---------------------------------------------------------------------
  // Default namespace
  // ---------------------------------------------------------------------

  /** getDefaultNamespace: the namespace the kubeconfig names, or "default" when
      there is no config, the lookup fails or it names none. Never fails. */
  function DefaultNamespace(config: Option<Config>): (ns: string)
    ensures ns != ""
    ensures config.Some? && config.value.namespace.Ok? && config.value.namespace.value != "" ==>
      ns == config.value.namespace.value
    ensures ns != "default" ==> config.Some? && config.value.namespace == Ok(ns)
  {
    if config.None? then "default"
    else if config.value.namespace.Err? then "default"
    else if config.value.namespace.value == "" then "default"
    else config.value.namespace.value
  }

  // ---------------------------------------------------------------------
  // The lookup chain of getGenericResourceNames and getGenericResourceYAML
  // ---------------------------------------------------------------------

  /** One kubeGet.Get(kind, namespace) call. */
  datatype Lookup = Lookup(kind: string, namespace: string)

  function Attempt(get: (string, string) -> Listing, l: Lookup): Listing {
    get(l.kind, l.namespace)
  }

  /** The guard of the dotted-name fallback: the kind has a "." but no ".v". */
  predicate DotFallback(kind: string) {
    Contains(kind, ".") && !Contains(kind, ".v") && |Split(kind, '.')| >= 2
  }

  /** The text before the first "." of a kind. */
  function FirstSegment(kind: string): string {
    Split(kind, '.')[0]
  }

  /** The `len(parts) >= 2` test of the fallback never fails: a kind holding
      "." always splits into at least two parts, and the first one differs from
      the kind. */
  lemma DotSegmentGuardHolds(kind: string)
    requires Contains(kind, ".")
    ensures |Split(kind, '.')| >= 2 && FirstSegment(kind) != kind
  {
    ContainsChar(kind, '.');
    SplitSingle(kind, '.');
    SplitPieces(kind, '.');
  }

  /** The lookups in the order they are tried: the kind in the namespace, then
      cluster-wide (only when a namespace was given), then the same two for the
      first dot-segment when the fallback guard holds. */
  function Lookups(kind: string, ns: string): (ls: seq<Lookup>)
    ensures |ls| == (if ns != "" then 2 else 1) * (if DotFallback(kind) then 2 else 1)
    ensures ls[0] == Lookup(kind, ns)
    ensures ns != "" ==> ls[1] == Lookup(kind, "")
    ensures forall l :: l in ls ==> l.namespace == ns || (ns != "" && l.namespace == "")
    ensures forall l :: l in ls ==> l.kind == kind || (DotFallback(kind) && l.kind == FirstSegment(kind))
    ensures forall i, j :: 0 <= i < j < |ls| && ls[j].kind == kind ==> ls[i].kind == kind
    ensures forall i, j :: 0 <= i < j < |ls| && ls[i].kind == ls[j].kind ==> ls[i].namespace == ns && ls[j].namespace == ""
  {
    var direct := [Lookup(kind, ns)] + (if ns != "" then [Lookup(kind, "")] else []);
    if DotFallback(kind) then
      var segment := FirstSegment(kind);
      DotSegmentGuardHolds(kind);
      direct + [Lookup(segment, ns)] + (if ns != "" then [Lookup(segment, "")] else [])
    else direct
  }

  /** The position of the first lookup whose listing succeeds, if any. */
  function FirstListed(get: (string, string) -> Listing, ls: seq<Lookup>): (r: Option<nat>)
    ensures r.Some? ==> r.value < |ls| && Attempt(get, ls[r.value]).Listed?
    ensures r.Some? ==> forall j :: 0 <= j < r.value ==> Attempt(get, ls[j]).ListFailed?
    ensures r.None? ==> forall j :: 0 <= j < |ls| ==> Attempt(get, ls[j]).ListFailed?
  {
    if |ls| == 0 then None
    else if Attempt(get, ls[0]).Listed? then Some(0)
    else
      match FirstListed(get, ls[1..])
      case None => None
      case Some(i) => Some(i + 1)
  }

  function NamesOf(items: seq<Item>): (names: seq<string>)
    ensures |names| == |items| && forall k :: 0 <= k < |items| ==> names[k] == items[k].name
  {
    seq(|items|, k requires 0 <= k < |items| => items[k].name)
  }

  /** What getGenericResourceNames answers. The final error carries the error of
      the first attempt, because the later attempts' errors are shadowed. */
  function GenericNames(s: Searcher, ns: string): Result<seq<string>> {
    if s.kubeGet.None? then Err(Plain("kubeGet client not available"))
    else
      var get := s.kubeGet.value.get;
      var ls := Lookups(s.kind, ns);
      match FirstListed(get, ls)
      case Some(i) => Ok(NamesOf(Attempt(get, ls[i]).items))
      case None => Err(Errorf("error getting " + s.kind + " resources: ", Attempt(get, ls[0]).err))
  }

  /** The collecting loop of each successful attempt. */
  method CollectNames(items: seq<Item>) returns (names: seq<string>)
    ensures names == NamesOf(items)
  {
    names := [];
    var i := 0;
    while i < |items|
      invariant 0 <= i <= |items|
      invariant names == NamesOf(items[..i])
    {
      names := names + [items[i].name];
      i := i + 1;
    }
    assert items[..|items|] == items;
  }

  /** getGenericResourceNames, written as the source's sequence of attempts. */
  method GetGenericResourceNames(s: Searcher, namespace: string) returns (r: Result<seq<string>>)
    ensures r == GenericNames(s, namespace)
  {
    if s.kubeGet.None? {
      return Err(Plain("kubeGet client not available"));
    }
    var get := s.kubeGet.value.get;
    var kind := s.kind;
    ghost var ls := Lookups(kind, namespace);

    var first := get(kind, namespace);
    if first.Listed? {
      var names := CollectNames(first.items);
      return Ok(names);
    }
    assert Attempt(get, ls[0]) == first;
    if namespace != "" {
      var clusterWide := get(kind, "");
      if clusterWide.Listed? {
        assert FirstListed(get, ls) == Some(1);
        var names := CollectNames(clusterWide.items);
        return Ok(names);
      }
    }
    var step := if namespace != "" then 2 else 1;
    assert forall j :: 0 <= j < step ==> Attempt(get, ls[j]).ListFailed?;
    if Contains(kind, ".") && !Contains(kind, ".v") {
      var parts := Split(kind, '.');
      if |parts| >= 2 {
        var resourceName := parts[0];
        var bySegment := get(resourceName, namespace);
        assert ls[step] == Lookup(resourceName, namespace);
        if bySegment.Listed? {
          assert FirstListed(get, ls) == Some(step);
          var names := CollectNames(bySegment.items);
          return Ok(names);
        }
        if namespace != "" {
          var segmentClusterWide := get(resourceName, "");
          assert ls[3] == Lookup(resourceName, "");
          if segmentClusterWide.Listed? {
            assert FirstListed(get, ls) == Some(3);
            var names := CollectNames(segmentClusterWide.items);
            return Ok(names);
          }
        }
        assert forall j :: 0 <= j < |ls| ==> Attempt(get, ls[j]).ListFailed?;
      }
    }
    assert FirstListed(get, ls) == None;
    return Err(Errorf("error getting " + s.kind + " resources: ", first.err));
  }

  /** The names returned come from the first lookup that succeeds; failure
      means every lookup failed and reports the first attempt's error. */
  lemma GenericNamesFirstSuccess(s: Searcher, ns: string)
    requires s.kubeGet.Some?
    ensures var get := s.kubeGet.value.get;
      var ls := Lookups(s.kind, ns);
      match GenericNames(s, ns)
      case Ok(names) =>
        exists i :: 0 <= i < |ls| && Attempt(get, ls[i]).Listed? && names == NamesOf(Attempt(get, ls[i]).items)
                    && (forall j :: 0 <= j < i ==> Attempt(get, ls[j]).ListFailed?)
      case Err(e) =>
        (forall j :: 0 <= j < |ls| ==> Attempt(get, ls[j]).ListFailed?)
        && Message(e) == "error getting " + s.kind + " resources: " + Message(get(s.kind, ns).err)
  {
    var get := s.kubeGet.value.get;
    var ls := Lookups(s.kind, ns);
    var found := FirstListed(get, ls);
    if found.Some? {
      assert 0 <= found.value < |ls|;
    }
  }

  // ---------------------------------------------------------------------
  // getGenericResourceYAML
  // ---------------------------------------------------------------------

  /** The position of the first item with the given name, if any. */
  function FindItem(items: seq<Item>, name: string): (r: Option<nat>)
    ensures r.Some? ==> r.value < |items| && items[r.value].name == name
    ensures r.Some? ==> forall j :: 0 <= j < r.value ==> items[j].name != name
    ensures r.None? ==> forall j :: 0 <= j < |items| ==> items[j].name != name
  {
    if |items| == 0 then None
    else if items[0].name == name then Some(0)
    else
      match FindItem(items[1..], name)
      case None => None
      case Some(i) => Some(i + 1)
  }

  /** The answer drawn from one successful listing: the first item of that name
      serialised, or "<kind> <name> not found". */
  function YAMLIn(items: seq<Item>, kind: string, name: string): Result<string> {
    match FindItem(items, name)
    case Some(i) => items[i].yaml
    case None => Err(Plain(kind + " " + name + " not found"))
  }

  /** What getGenericResourceYAML answers: the first listing that succeeds
      decides, so a missing name there is final. */
  function GenericYAML(s: Searcher, ns: string, name: string): Result<string> {
    if s.kubeGet.None? then Err(Plain("kubeGet client not available"))
    else
      var get := s.kubeGet.value.get;
      var ls := Lookups(s.kind, ns);
      match FirstListed(get, ls)
      case Some(i) => YAMLIn(Attempt(get, ls[i]).items, s.kind, name)
      case None => Err(Errorf("error getting " + s.kind + " resources: ", Attempt(get, ls[0]).err))
  }

  /** The search loop of each successful attempt. */
  method FindYAML(items: seq<Item>, kind: string, name: string) returns (r: Result<string>)
    ensures r == YAMLIn(items, kind, name)
  {
    var i := 0;
    while i < |items|
      invariant 0 <= i <= |items|
      invariant forall j :: 0 <= j < i ==> items[j].name != name
    {
      if items[i].name == name {
        assert FindItem(items, name) == Some(i);
        return items[i].yaml;
      }
      i := i + 1;
    }
    return Err(Plain(kind + " " + name + " not found"));
  }

  /** getGenericResourceYAML, written as the source's sequence of attempts. */
  method GetGenericResourceYAML(s: Searcher, namespace: string, name: string) returns (r: Result<string>)
    ensures r == GenericYAML(s, namespace, name)
  {
    if s.kubeGet.None? {
      return Err(Plain("kubeGet client not available"));
    }
    var get := s.kubeGet.value.get;
    var kind := s.kind;
    ghost var ls := Lookups(kind, namespace);

    var first := get(kind, namespace);
    if first.Listed? {
      r := FindYAML(first.items, s.kind, name);
      return;
    }
    assert Attempt(get, ls[0]) == first;
    if namespace != "" {
      var clusterWide := get(kind, "");
      if clusterWide.Listed? {
        assert FirstListed(get, ls) == Some(1);
        r := FindYAML(clusterWide.items, s.kind, name);
        return;
      }
    }
    var step := if namespace != "" then 2 else 1;
    assert forall j :: 0 <= j < step ==> Attempt(get, ls[j]).ListFailed?;
    if Contains(kind, ".") && !Contains(kind, ".v") {
      var parts := Split(kind, '.');
      if |parts| >= 2 {
        var resourceName := parts[0];
        var bySegment := get(resourceName, namespace);
        assert ls[step] == Lookup(resourceName, namespace);
        if bySegment.Listed? {
          assert FirstListed(get, ls) == Some(step);
          r := FindYAML(bySegment.items, s.kind, name);
          return;
        }
        if namespace != "" {
          var segmentClusterWide := get(resourceName, "");
          assert ls[3] == Lookup(resourceName, "");
          if segmentClusterWide.Listed? {
            assert FirstListed(get, ls) == Some(3);
            r := FindYAML(segmentClusterWide.items, s.kind, name);
            return;
          }
        }
        assert forall j :: 0 <= j < |ls| ==> Attempt(get, ls[j]).ListFailed?;
      }
    }
    assert FirstListed(get, ls) == None;
    return Err(Errorf("error getting " + s.kind + " resources: ", first.err));
  }

  /** A first listing that succeeds without the name ends the search with
      "not found", whatever the later lookups would have returned. */
  lemma NotFoundIsFinal(s: Searcher, ns: string, name: string)
    requires s.kubeGet.Some? && s.kubeGet.value.get(s.kind, ns).Listed?
    requires forall it :: it in s.kubeGet.value.get(s.kind, ns).items ==> it.name != name
    ensures GenericYAML(s, ns, name) == Err(Plain(s.kind + " " + name + " not found"))
  {
    var items := s.kubeGet.value.get(s.kind, ns).items;
    forall j | 0 <= j < |items| ensures items[j].name != name {
      assert items[j] in items;
    }
  }

  /** Every name that getGenericResourceNames lists can be fetched by
      getGenericResourceYAML from the same lookups: the answer is that
      item's serialisation (or the first item of that name's). */
  lemma ListedNamesHaveYAML(s: Searcher, ns: string, name: string)
    requires GenericNames(s, ns).Ok? && name in GenericNames(s, ns).value
    ensures var get := s.kubeGet.value.get;
      var ls := Lookups(s.kind, ns);
      exists it :: it in Attempt(get, ls[FirstListed(get, ls).value]).items && it.name == name && GenericYAML(s, ns, name) == it.yaml
  {
    var get := s.kubeGet.value.get;
    var ls := Lookups(s.kind, ns);
    var i := FirstListed(get, ls).value;
    var items := Attempt(get, ls[i]).items;
    var k :| 0 <= k < |items| && NamesOf(items)[k] == name;
    var found := FindItem(items, name);
    assert found.Some?;
    assert items[found.value] in items;
  }

  // ---------------------------------------------------------------------
  // searchResource, Search, SearchWithoutNamespace
  // ---------------------------------------------------------------------

  /** The occurrences of one resource built from its hits; the namespace field
      is left empty. */
  function OccurrencesOf(resource: string, hits: seq<Hit>): (r: seq<Occurrence>)
    ensures |r| == |hits|
    ensures forall k :: 0 <= k < |hits| ==> r[k] == Occurrence(resource, "", hits[k].lineNumber, hits[k].text)
  {
    seq(|hits|, k requires 0 <= k < |hits| => Occurrence(resource, "", hits[k].lineNumber, hits[k].text))
  }

  /** What searchResource returns: nothing when the YAML cannot be fetched,
      otherwise the lines of strings.Split(yaml, "\n") that contain the pattern
      ignoring case. */
  function ResourceResult(s: Searcher, ns: string, resource: string, pattern: string): seq<Occurrence> {
    var yaml := GenericYAML(s, ns, resource);
    if yaml.Err? then [] else OccurrencesOf(resource, Hits(Split(yaml.value, '\n'), pattern, true))
  }

  method SearchResource(s: Searcher, namespace: string, resource: string, pattern: string) returns (occurrences: seq<Occurrence>)
    ensures occurrences == ResourceResult(s, namespace, resource, pattern)
  {
    var yaml := GetGenericResourceYAML(s, namespace, resource);
    if yaml.Err? {
      return [];
    }
    var lines := Split(yaml.value, '\n');
    occurrences := [];
    var i := 0;
    while i < |lines|
      invariant 0 <= i <= |lines|
      invariant occurrences == OccurrencesOf(resource, Hits(lines[..i], pattern, true))
    {
      HitsStep(lines, i, pattern, true);
      var line := lines[i];
      if Contains(Lower(line), Lower(pattern)) {
        occurrences := occurrences + [Occurrence(resource, "", i + 1, line)];
      }
      i := i + 1;
    }
    assert lines[..|lines|] == lines;
  }

  /** An occurrence of a resource is exactly a numbered line of its YAML that
      contains the pattern ignoring case, tagged with the resource name and an
      empty namespace; occurrences follow the line order. */
  lemma ResourceResultExactly(s: Searcher, ns: string, resource: string, pattern: string)
    requires GenericYAML(s, ns, resource).Ok?
    ensures var lines := Split(GenericYAML(s, ns, resource).value, '\n');
      var r := ResourceResult(s, ns, resource, pattern);
      (forall o :: o in r <==> (o.resource == resource && o.namespace == ""
                                && 1 <= o.line <= |lines| && o.content == lines[o.line - 1]
                                && Contains(Lower(o.content), Lower(pattern))))
      && (forall i, j :: 0 <= i < j < |r| ==> r[i].line < r[j].line)
  {
    var lines := Split(GenericYAML(s, ns, resource).value, '\n');
    var hits := Hits(lines, pattern, true);
    var r := ResourceResult(s, ns, resource, pattern);
    HitsExactly(lines, pattern, true);
    HitsOrdered(lines, pattern, true);
    forall o
      ensures o in r <==> (o.resource == resource && o.namespace == ""
                           && 1 <= o.line <= |lines| && o.content == lines[o.line - 1]
                           && Contains(Lower(o.content), Lower(pattern)))
    {
      if o in r {
        var k :| 0 <= k < |r| && r[k] == o;
        assert hits[k] in hits;
      }
      if o.resource == resource && o.namespace == "" && 1 <= o.line <= |lines| && o.content == lines[o.line - 1]
        && Contains(Lower(o.content), Lower(pattern)) {
        var h := Hit(o.line, o.content);
        assert h in hits;
        var k :| 0 <= k < |hits| && hits[k] == h;
        assert r[k] == o;
      }
    }
  }

  /** With the empty pattern every line of the split YAML is an occurrence;
      YAML ending in a newline therefore also yields its empty last line. */
  lemma ResourceResultEmptyPattern(s: Searcher, ns: string, resource: string)
    requires GenericYAML(s, ns, resource).Ok?
    ensures var yaml := GenericYAML(s, ns, resource).value;
      var lines := Split(yaml, '\n');
      var r := ResourceResult(s, ns, resource, "");
      |r| == |lines| && (forall k :: 0 <= k < |lines| ==> r[k] == Occurrence(resource, "", k + 1, lines[k]))
      && (|yaml| > 0 && yaml[|yaml| - 1] == '\n' ==> r[|r| - 1] == Occurrence(resource, "", |lines|, ""))
  {
    var yaml := GenericYAML(s, ns, resource).value;
    EmptyPatternHitsAll(Split(yaml, '\n'), true);
    if |yaml| > 0 && yaml[|yaml| - 1] == '\n' {
      assert yaml == yaml[..|yaml| - 1] + ['\n'];
      SplitAppendSeparator(yaml[..|yaml| - 1], '\n');
    }
  }

  /** The occurrences of the listed names, concatenated in listing order. */
  function Collected(s: Searcher, ns: string, names: seq<string>, pattern: string): seq<Occurrence>
    decreases |names|
  {
    if |names| == 0 then []
    else Collected(s, ns, names[..|names| - 1], pattern) + ResourceResult(s, ns, names[|names| - 1], pattern)
  }

  /** What Search answers. */
  function SearchResult(s: Searcher, ns: string, pattern: string): Result<seq<Occurrence>> {
    if s.clientset.None? then Err(Plain("Kubernetes clientset not available"))
    else
      match GenericNames(s, ns)
      case Err(e) => Err(Errorf("error getting resources: ", e))
      case Ok(names) => Ok(Collected(s, ns, names, pattern))
  }

  method Search(s: Searcher, namespace: string, pattern: string) returns (r: Result<seq<Occurrence>>)
    ensures r == SearchResult(s, namespace, pattern)
  {
    if s.clientset.None? {
      return Err(Plain("Kubernetes clientset not available"));
    }
    var resources := GetGenericResourceNames(s, namespace);
    if resources.Err? {
      return Err(Errorf("error getting resources: ", resources.error));
    }
    var names := resources.value;
    var occurrences := [];
    var i := 0;
    while i < |names|
      invariant 0 <= i <= |names|
      invariant occurrences == Collected(s, namespace, names[..i], pattern)
    {
      var found := SearchResource(s, namespace, names[i], pattern);
      assert names[..i + 1][..i] == names[..i];
      occurrences := occurrences + found;
      i := i + 1;
    }
    assert names[..|names|] == names;
    return Ok(occurrences);
  }

  /** Every occurrence Search reports belongs to a listed name and, like each
      per-resource result, carries an empty namespace. */
  lemma {:induction false} CollectedBelongs(s: Searcher, ns: string, names: seq<string>, pattern: string)
    ensures forall o :: o in Collected(s, ns, names, pattern) ==> o.resource in names && o.namespace == ""
    decreases |names|
  {
    if |names| > 0 {
      var init := names[..|names| - 1];
      CollectedBelongs(s, ns, init, pattern);
      forall o | o in Collected(s, ns, names, pattern)
        ensures o.resource in names && o.namespace == ""
      {
        if o in Collected(s, ns, init, pattern) {
          assert o.resource in init;
        } else {
          var r := ResourceResult(s, ns, names[|names| - 1], pattern);
          assert o in r;
          var k :| 0 <= k < |r| && r[k] == o;
        }
      }
    }
  }

  /** A missing clientset is reported before anything is listed. */
  lemma SearchNeedsClientset(s: Searcher, ns: string, pattern: string)
    ensures s.clientset.None? ==> SearchResult(s, ns, pattern) == Err(Plain("Kubernetes clientset not available"))
    ensures s.clientset.Some? && s.kubeGet.None? ==>
      SearchResult(s, ns, pattern) == Err(Errorf("error getting resources: ", Plain("kubeGet client not available")))
  {
  }

  /** SearchWithoutNamespace: Search in the default namespace, which is never
      empty, so it never falls back to a cluster-wide lookup by itself. */
  method SearchWithoutNamespace(s: Searcher, pattern: string) returns (r: Result<seq<Occurrence>>)
    ensures r == SearchResult(s, DefaultNamespace(s.config), pattern)
  {
    var namespace := DefaultNamespace(s.config);
    r := Search(s, namespace, pattern);
  }

  // ---------------------------------------------------------------------
  // discoverAPIVersionAndKind
  // ---------------------------------------------------------------------

  datatype Discovered = Discovered(apiVersion: string, kind: string, resourceName: string)

  /** The core group (empty name) is addressed by its bare version. */
  function ApiVersionOf(g: APIGroup, v: GroupVersion): string {
    if g.name == "" then v.version else v.groupVersion
  }

  /** A resource whose kind matches ignoring case, found in group version
      `av` of the catalogue. */
  predicate MatchIn(cs: Clientset, av: string, kind: string, d: Discovered) {
    d.apiVersion == av && cs.resourcesFor(av).Ok?
    && exists res :: res in cs.resourcesFor(av).value && EqualFold(res.kind, kind) && d.kind == res.kind && d.resourceName == res.name
  }

  /** The first resource of group version `av` whose kind matches ignoring
      case, as discovery reports it. */
  predicate FirstMatchIn(cs: Clientset, av: string, kind: string, d: Discovered) {
    cs.resourcesFor(av).Ok?
    && var rs := cs.resourcesFor(av).value;
    exists i :: 0 <= i < |rs| && EqualFold(rs[i].kind, kind)
      && d == Discovered(av, rs[i].kind, rs[i].name)
      && forall j :: 0 <= j < i ==> !EqualFold(rs[j].kind, kind)
  }

  /** Group version `av` contributes nothing: its resources cannot be listed,
      or none of them has a matching kind. */
  predicate NoMatchIn(cs: Clientset, av: string, kind: string) {
    cs.resourcesFor(av).Err?
    || forall res :: res in cs.resourcesFor(av).value ==> !EqualFold(res.kind, kind)
  }

  /** The first resource whose kind matches ignoring case. */
  function FindResource(rs: seq<APIResource>, kind: string): (r: Option<APIResource>)
    ensures r.Some? ==> r.value in rs && EqualFold(r.value.kind, kind)
    ensures r.Some? ==> exists i :: (0 <= i < |rs| && rs[i] == r.value
      && forall j :: 0 <= j < i ==> !EqualFold(rs[j].kind, kind))
    ensures r.None? <==> forall res :: res in rs ==> !EqualFold(res.kind, kind)
  {
    if |rs| == 0 then None
    else if EqualFold(rs[0].kind, kind) then Some(rs[0])
    else FindResource(rs[1..], kind)
  }

  /** The first match among the versions of one group, skipping versions whose
      resource list cannot be fetched. */
  function FindInVersions(cs: Clientset, g: APIGroup, vs: seq<GroupVersion>, kind: string): Option<Discovered>
    decreases |vs|
  {
    if |vs| == 0 then None
    else
      var av := ApiVersionOf(g, vs[0]);
      match cs.resourcesFor(av)
      case Err(_) => FindInVersions(cs, g, vs[1..], kind)
      case Ok(rs) =>
        match FindResource(rs, kind)
        case Some(res) => Some(Discovered(av, res.kind, res.name))
        case None => FindInVersions(cs, g, vs[1..], kind)
  }

  /** A match found among the versions is a real match of one of them; none
      is found only when no version has one. */
  lemma {:induction false} FindInVersionsMatch(cs: Clientset, g: APIGroup, vs: seq<GroupVersion>, kind: string)
    ensures var r := FindInVersions(cs, g, vs, kind);
      (r.Some? ==> exists v :: v in vs && MatchIn(cs, ApiVersionOf(g, v), kind, r.value))
      && (r.None? ==> forall v, d :: v in vs ==> !MatchIn(cs, ApiVersionOf(g, v), kind, d))
    decreases |vs|
  {
    if |vs| > 0 {
      var av := ApiVersionOf(g, vs[0]);
      FindInVersionsMatch(cs, g, vs[1..], kind);
      assert forall v :: v in vs ==> v == vs[0] || v in vs[1..];
      assert forall v :: v in vs[1..] ==> v in vs;
      match cs.resourcesFor(av)
      case Err(_) =>
      case Ok(rs) =>
        match FindResource(rs, kind)
        case Some(res) =>
          assert MatchIn(cs, av, kind, Discovered(av, res.kind, res.name));
        case None =>
    }
  }

  /** The match found among the versions is the first resource of the first
      version that has one; every earlier version cannot be listed or has no
      matching kind. */
  lemma {:induction false} FindInVersionsFirst(cs: Clientset, g: APIGroup, vs: seq<GroupVersion>, kind: string)
    ensures var r := FindInVersions(cs, g, vs, kind);
      (r.Some? ==> exists k :: (0 <= k < |vs| && FirstMatchIn(cs, ApiVersionOf(g, vs[k]), kind, r.value)
        && forall j :: 0 <= j < k ==> NoMatchIn(cs, ApiVersionOf(g, vs[j]), kind)))
      && (r.None? ==> forall j :: 0 <= j < |vs| ==> NoMatchIn(cs, ApiVersionOf(g, vs[j]), kind))
    decreases |vs|
  {
    if |vs| > 0 {
      var av := ApiVersionOf(g, vs[0]);
      var r := FindInVersions(cs, g, vs, kind);
      FindInVersionsFirst(cs, g, vs[1..], kind);
      assert forall j :: 0 < j < |vs| ==> vs[j] == vs[1..][j - 1];
      if cs.resourcesFor(av).Ok? && FindResource(cs.resourcesFor(av).value, kind).Some? {
        var rs := cs.resourcesFor(av).value;
        var res := FindResource(rs, kind).value;
        assert r == Some(Discovered(av, res.kind, res.name));
        assert FirstMatchIn(cs, av, kind, r.value);
      } else {
        assert NoMatchIn(cs, av, kind);
        if r.Some? {
          var k' :| 0 <= k' < |vs[1..]| && FirstMatchIn(cs, ApiVersionOf(g, vs[1..][k']), kind, r.value)
            && forall j :: 0 <= j < k' ==> NoMatchIn(cs, ApiVersionOf(g, vs[1..][j]), kind);
          assert FirstMatchIn(cs, ApiVersionOf(g, vs[k' + 1]), kind, r.value);
        }
      }
    }
  }

  /** The first match over the groups in catalogue order. */
  function FindInGroups(cs: Clientset, gs: seq<APIGroup>, kind: string): Option<Discovered> {
    if |gs| == 0 then None
    else
      match FindInVersions(cs, gs[0], gs[0].versions, kind)
      case Some(d) => Some(d)
      case None => FindInGroups(cs, gs[1..], kind)
  }

  /** A match found over the groups comes from some served group and
      version; none is found only when no group version has one. */
  lemma {:induction false} FindInGroupsMatch(cs: Clientset, gs: seq<APIGroup>, kind: string)
    ensures var r := FindInGroups(cs, gs, kind);
      (r.Some? ==> exists g, v :: g in gs && v in g.versions && MatchIn(cs, ApiVersionOf(g, v), kind, r.value))
      && (r.None? ==> forall g, v, d :: g in gs && v in g.versions ==> !MatchIn(cs, ApiVersionOf(g, v), kind, d))
  {
    if |gs| > 0 {
      FindInVersionsMatch(cs, gs[0], gs[0].versions, kind);
      FindInGroupsMatch(cs, gs[1..], kind);
      assert forall g :: g in gs ==> g == gs[0] || g in gs[1..];
      assert forall g :: g in gs[1..] ==> g in gs;
    }
  }

  /** The match found over the groups is the one of the first group whose
      versions hold a match; every earlier group has none. */
  lemma {:induction false} FindInGroupsFirst(cs: Clientset, gs: seq<APIGroup>, kind: string)
    ensures var r := FindInGroups(cs, gs, kind);
      (r.Some? ==> exists k :: (0 <= k < |gs| && FindInVersions(cs, gs[k], gs[k].versions, kind) == r
        && forall j :: 0 <= j < k ==> FindInVersions(cs, gs[j], gs[j].versions, kind).None?))
      && (r.None? ==> forall j :: 0 <= j < |gs| ==> FindInVersions(cs, gs[j], gs[j].versions, kind).None?)
  {
    if |gs| == 0 {
    } else if FindInVersions(cs, gs[0], gs[0].versions, kind).Some? {
      assert FindInGroups(cs, gs, kind) == FindInVersions(cs, gs[0], gs[0].versions, kind);
    } else {
      var r := FindInGroups(cs, gs, kind);
      assert r == FindInGroups(cs, gs[1..], kind);
      FindInGroupsFirst(cs, gs[1..], kind);
      assert forall j :: 0 < j < |gs| ==> gs[j] == gs[1..][j - 1];
      if r.Some? {
        var k' :| 0 <= k' < |gs[1..]| && FindInVersions(cs, gs[1..][k'], gs[1..][k'].versions, kind) == r
          && forall j :: 0 <= j < k' ==> FindInVersions(cs, gs[1..][j], gs[1..][j].versions, kind).None?;
        assert FindInVersions(cs, gs[k' + 1], gs[k' + 1].versions, kind) == r;
      }
    }
  }

  /** What discoverAPIVersionAndKind answers. */
  function Discovery(s: Searcher): Result<Discovered> {
    if s.clientset.None? then Err(Plain("kubernetes clientset not available"))
    else
      var cs := s.clientset.value;
      match cs.serverGroups
      case Err(e) => Err(Errorf("error getting API groups: ", e))
      case Ok(gs) =>
        match FindInGroups(cs, gs, s.kind)
        case Some(d) => Ok(d)
        case None => Err(Plain("could not find API version for kind '" + s.kind + "'"))
  }

  /** The innermost loop of discoverAPIVersionAndKind: the first resource of
      one list whose kind matches ignoring case. */
  method ScanResources(resources: seq<APIResource>, kind: string) returns (r: Option<APIResource>)
    ensures r == FindResource(resources, kind)
  {
    var k := 0;
    while k < |resources|
      invariant 0 <= k <= |resources|
      invariant FindResource(resources, kind) == FindResource(resources[k..], kind)
    {
      assert resources[k..][1..] == resources[k + 1..];
      if EqualFold(resources[k].kind, kind) {
        return Some(resources[k]);
      }
      k := k + 1;
    }
    return None;
  }

  /** discoverAPIVersionAndKind: scan groups, their versions and each version's
      resources in order and return the first resource whose kind matches. */
  method DiscoverAPIVersionAndKind(s: Searcher) returns (r: Result<Discovered>)
    ensures r == Discovery(s)
  {
    if s.clientset.None? {
      return Err(Plain("kubernetes clientset not available"));
    }
    var cs := s.clientset.value;
    if cs.serverGroups.Err? {
      return Err(Errorf("error getting API groups: ", cs.serverGroups.error));
    }
    var groups := cs.serverGroups.value;
    var i := 0;
    while i < |groups|
      invariant 0 <= i <= |groups|
      invariant FindInGroups(cs, groups, s.kind) == FindInGroups(cs, groups[i..], s.kind)
    {
      assert groups[i..][1..] == groups[i + 1..];
      var found := ScanVersions(cs, groups[i], s.kind);
      if found.Some? {
        return Ok(found.value);
      }
      i := i + 1;
    }
    return Err(Plain("could not find API version for kind '" + s.kind + "'"));
  }

  /** The loop over one group's versions: a version whose resources cannot
      be listed is skipped; the first matching resource wins. */
  method ScanVersions(cs: Clientset, group: APIGroup, kind: string) returns (r: Option<Discovered>)
    ensures r == FindInVersions(cs, group, group.versions, kind)
  {
    var j := 0;
    while j < |group.versions|
      invariant 0 <= j <= |group.versions|
      invariant FindInVersions(cs, group, group.versions, kind) == FindInVersions(cs, group, group.versions[j..], kind)
    {
      var version := group.versions[j];
      var apiVersion := version.groupVersion;
      if group.name == "" {
        apiVersion := version.version;
      }
      assert group.versions[j..][1..] == group.versions[j + 1..];
      var resourceList := cs.resourcesFor(apiVersion);
      if resourceList.Err? {
        j := j + 1;
        continue;
      }
      var found := ScanResources(resourceList.value, kind);
      if found.Some? {
        return Some(Discovered(apiVersion, found.value.kind, found.value.name));
      }
      j := j + 1;
    }
    return None;
  }

  /** Discovery succeeds exactly when some listed group version holds a
      resource of a matching kind, and then reports that resource, its
      canonical kind and its group version. */
  lemma DiscoveryFindsMatch(s: Searcher, g: APIGroup, v: GroupVersion, res: APIResource)
    requires s.clientset.Some? && s.clientset.value.serverGroups.Ok?
    requires g in s.clientset.value.serverGroups.value && v in g.versions
    requires s.clientset.value.resourcesFor(ApiVersionOf(g, v)).Ok?
    requires res in s.clientset.value.resourcesFor(ApiVersionOf(g, v)).value && EqualFold(res.kind, s.kind)
    ensures Discovery(s).Ok?
  {
    var cs := s.clientset.value;
    var av := ApiVersionOf(g, v);
    FindInGroupsMatch(cs, cs.serverGroups.value, s.kind);
    assert MatchIn(cs, av, s.kind, Discovered(av, res.kind, res.name));
  }

  /** Discovery reports the first match in catalogue order: the first
      matching resource of the first group version that has one, where every
      version of every earlier group, and every earlier version of the same
      group, cannot be listed or has no matching kind. */
  lemma DiscoveryFirst(s: Searcher)
    requires Discovery(s).Ok?
    ensures var cs := s.clientset.value; var gs := cs.serverGroups.value;
      exists k, m :: 0 <= k < |gs| && 0 <= m < |gs[k].versions|
        && FirstMatchIn(cs, ApiVersionOf(gs[k], gs[k].versions[m]), s.kind, Discovery(s).value)
        && (forall j :: 0 <= j < m ==> NoMatchIn(cs, ApiVersionOf(gs[k], gs[k].versions[j]), s.kind))
        && (forall i, j :: 0 <= i < k && 0 <= j < |gs[i].versions| ==> NoMatchIn(cs, ApiVersionOf(gs[i], gs[i].versions[j]), s.kind))
  {
    var cs := s.clientset.value;
    var gs := cs.serverGroups.value;
    FindInGroupsFirst(cs, gs, s.kind);
    var k :| 0 <= k < |gs| && FindInVersions(cs, gs[k], gs[k].versions, s.kind) == Some(Discovery(s).value)
      && forall j :: 0 <= j < k ==> FindInVersions(cs, gs[j], gs[j].versions, s.kind).None?;
    FindInVersionsFirst(cs, gs[k], gs[k].versions, s.kind);
    forall i | 0 <= i < k
      ensures forall j :: 0 <= j < |gs[i].versions| ==> NoMatchIn(cs, ApiVersionOf(gs[i], gs[i].versions[j]), s.kind)
    {
      FindInVersionsFirst(cs, gs[i], gs[i].versions, s.kind);
    }
  }

  /** Whatever discovery reports is a real match from the catalogue. */
  lemma DiscoverySound(s: Searcher)
    requires Discovery(s).Ok?
    ensures var cs := s.clientset.value;
      exists g, v :: g in cs.serverGroups.value && v in g.versions
        && MatchIn(cs, ApiVersionOf(g, v), s.kind, Discovery(s).value)
  {
    FindInGroupsMatch(s.clientset.value, s.clientset.value.serverGroups.value, s.kind);
  }
}

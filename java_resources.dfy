/** resource/GenericResourceRetriever.java: list the resources of one kind in
    one namespace. A kind that matches a served resource ignoring case is
    replaced by that resource's own spelling, and the apiVersion is cut into
    group and version for the resource definition context.

    The client is an oracle: its own and its configuration's namespace (either
    may be null), the resource list served for each apiVersion (null for one
    the server does not serve), and what a generic listing for a context in a
    namespace returns or throws. Java nulls are None. */
module JavaResources {
  import opened Text
  import opened GoErrors
  import opened JavaLang

  datatype ApiResource = ApiResource(kind: string)

  /** ResourceDefinitionContext as the builder fills it. */
  datatype ResourceContext = ResourceContext(group: string, version: string, kind: string, namespaced: bool)

  /** One GenericKubernetesResource, reduced to its name. */
  datatype Resource = Resource(name: string)

  datatype Client = Client(
    namespace: Option<string>,
    configNamespace: Option<string>,
    apiResources: string -> Option<seq<ApiResource>>,
    list: (ResourceContext, string) -> Outcome<seq<Resource>>)

  /** findFirst over the resources whose kind equals `kind` ignoring case. */
  function FirstKindMatch(resources: seq<ApiResource>, kind: string): (r: Option<nat>)
    ensures r.Some? ==> r.value < |resources| && EqualFold(resources[r.value].kind, kind)
    ensures r.Some? ==> forall j :: 0 <= j < r.value ==> !EqualFold(resources[j].kind, kind)
    ensures r.None? ==> forall j :: 0 <= j < |resources| ==> !EqualFold(resources[j].kind, kind)
  {
    if |resources| == 0 then None
    else if EqualFold(resources[0].kind, kind) then Some(0)
    else
      match FirstKindMatch(resources[1..], kind)
      case None => None
      case Some(i) => Some(i + 1)
  }

  /** The kind the context gets: the first matching resource's own kind, or
      the caller's kind unchanged. */
  function ResolveKind(resources: seq<ApiResource>, kind: string): (k: string)
    ensures EqualFold(k, kind)
    ensures (forall j :: 0 <= j < |resources| ==> !EqualFold(resources[j].kind, kind)) ==> k == kind
    ensures (exists j :: 0 <= j < |resources| && EqualFold(resources[j].kind, kind)) ==>
      exists j :: 0 <= j < |resources| && k == resources[j].kind
        && forall i :: 0 <= i < j ==> !EqualFold(resources[i].kind, kind)
  {
    match FirstKindMatch(resources, kind)
    case Some(i) => resources[i].kind
    case None => kind
  }

  /** parts[i], or the exception an array index past the end throws. */
  function At(parts: seq<string>, i: nat): (r: Outcome<string>)
    ensures r.Returned? <==> i < |parts|
    ensures r.Returned? ==> r.value == parts[i]
    ensures r.Thrown? ==> r.exception == ArrayIndexOutOfBounds(i, |parts|)
  {
    if i < |parts| then Returned(parts[i]) else Thrown(ArrayIndexOutOfBounds(i, |parts|))
  }

  /** getResourceDefinitionContext's builder: with a "/" the group is
      split("/")[0] and the version split("/")[1] (the group is evaluated
      first); without one the group is "" and the version the whole
      apiVersion. The context is always namespaced. */
  function ContextFor(apiVersion: string, kind: string): (r: Outcome<ResourceContext>)
    ensures '/' !in apiVersion ==> r == Returned(ResourceContext("", apiVersion, kind, true))
    ensures r.Returned? ==> r.value.namespaced && r.value.kind == kind
    ensures r.Thrown? ==> '/' in apiVersion && r.exception.ArrayIndexOutOfBounds?
  {
    if '/' !in apiVersion then Returned(ResourceContext("", apiVersion, kind, true))
    else
      var parts := JavaSplit(apiVersion, '/');
      match At(parts, 0)
      case Thrown(e) => Thrown(e)
      case Returned(group) =>
        match At(parts, 1)
        case Thrown(e) => Thrown(e)
        case Returned(version) => Returned(ResourceContext(group, version, kind, true))
  }

  /** The pieces String.split keeps are the first pieces of strings.Split. */
  lemma JavaSplitPrefix(s: string, sep: char)
    requires sep in s
    ensures JavaSplit(s, sep) <= Split(s, sep)
  {
  }

  /** With a "/", a context that can be built has the text before the first
      "/" as its group and the text between the first and the second "/" (or
      the end) as its version. */
  lemma ContextSplitsAtFirstSlash(apiVersion: string, kind: string)
    requires '/' in apiVersion && ContextFor(apiVersion, kind).Returned?
    ensures var ctx := ContextFor(apiVersion, kind).value;
      '/' !in ctx.group && '/' !in ctx.version
      && HasPrefix(apiVersion, ctx.group + "/" + ctx.version)
      && (|apiVersion| == |ctx.group| + 1 + |ctx.version| || apiVersion[|ctx.group| + 1 + |ctx.version|] == '/')
  {
    var parts := Split(apiVersion, '/');
    var ctx := ContextFor(apiVersion, kind).value;
    JavaSplitPrefix(apiVersion, '/');
    SplitPieces(apiVersion, '/');
    SplitJoin(apiVersion, '/');
    assert ctx.group == parts[0] && ctx.version == parts[1];
    assert Join(parts, '/') == parts[0] + "/" + Join(parts[1..], '/');
    var rest := parts[1..];
    if |rest| == 1 {
      assert apiVersion == parts[0] + "/" + parts[1];
    } else {
      assert Join(rest, '/') == rest[0] + "/" + Join(rest[1..], '/');
      assert apiVersion == (parts[0] + "/" + parts[1]) + "/" + Join(rest[1..], '/');
    }
  }

  /** A version left empty after the "/" cannot be read: "apps/" throws for
      index 1 of the one-piece split. */
  lemma TrailingSlashThrows(group: string, kind: string)
    requires group != "" && '/' !in group
    ensures ContextFor(group + "/", kind) == Thrown(ArrayIndexOutOfBounds(1, 1))
  {
    SplitAppendSeparator(group, '/');
    SplitSingle(group, '/');
    SplitJoin(group, '/');
    assert Split(group, '/') == [group];
    assert Split(group + "/", '/') == [group, ""];
    assert JavaSplit(group + "/", '/') == [group];
  }

  /** getResources(namespace, apiVersion, kind). The resource list is
      dereferenced without a null check, and the listing's own exception
      propagates. */
  function GetResources(c: Client, namespace: Option<string>, apiVersion: Option<string>, kind: Option<string>): (r: Outcome<seq<Resource>>)
    ensures namespace.None? || apiVersion.None? || kind.None? ==> r == Thrown(NullPointer)
    ensures namespace.Some? && apiVersion.Some? && kind.Some? && c.apiResources(apiVersion.value).None? ==> r == Thrown(NullPointer)
    ensures r.Returned? ==> namespace.Some? && apiVersion.Some? && kind.Some? && c.apiResources(apiVersion.value).Some?
  {
    if namespace.None? || apiVersion.None? || kind.None? then Thrown(NullPointer)
    else
      match c.apiResources(apiVersion.value)
      case None => Thrown(NullPointer)
      case Some(resources) =>
        var resolved := ResolveKind(resources, kind.value);
        match ContextFor(apiVersion.value, resolved)
        case Thrown(e) => Thrown(e)
        case Returned(ctx) => c.list(ctx, namespace.value)
  }

  /** A listing that returns comes from a namespaced context for a kind equal
      to the caller's ignoring case, listed in the caller's namespace. */
  lemma GetResourcesQuery(c: Client, namespace: string, apiVersion: string, kind: string)
    requires GetResources(c, Some(namespace), Some(apiVersion), Some(kind)).Returned?
    ensures exists ctx: ResourceContext ::
      GetResources(c, Some(namespace), Some(apiVersion), Some(kind)) == c.list(ctx, namespace)
      && ctx.namespaced && EqualFold(ctx.kind, kind)
      && ('/' !in apiVersion ==> ctx.group == "" && ctx.version == apiVersion)
  {
    var ctx := ContextFor(apiVersion, ResolveKind(c.apiResources(apiVersion).value, kind)).value;
    assert GetResources(c, Some(namespace), Some(apiVersion), Some(kind)) == c.list(ctx, namespace);
  }

  /** Once the context is built, whatever the listing throws is what
      getResources throws. */
  lemma ListingExceptionPropagates(c: Client, namespace: string, apiVersion: string, kind: string, resources: seq<ApiResource>)
    requires c.apiResources(apiVersion) == Some(resources)
    requires ContextFor(apiVersion, ResolveKind(resources, kind)).Returned?
    requires c.list(ContextFor(apiVersion, ResolveKind(resources, kind)).value, namespace).Thrown?
    ensures GetResources(c, Some(namespace), Some(apiVersion), Some(kind))
         == c.list(ContextFor(apiVersion, ResolveKind(resources, kind)).value, namespace)
  {
  }

  /** A kind no served resource matches is used exactly as given. */
  lemma UnknownKindKept(c: Client, namespace: string, apiVersion: string, kind: string)
    requires '/' !in apiVersion && c.apiResources(apiVersion).Some?
    requires forall j :: 0 <= j < |c.apiResources(apiVersion).value| ==> !EqualFold(c.apiResources(apiVersion).value[j].kind, kind)
    ensures GetResources(c, Some(namespace), Some(apiVersion), Some(kind))
         == c.list(ResourceContext("", apiVersion, kind, true), namespace)
  {
  }

  /** getResources(apiVersion, kind): the client's namespace, or the
      configuration's when the client has none. */
  function GetResourcesInClientNamespace(c: Client, apiVersion: Option<string>, kind: Option<string>): (r: Outcome<seq<Resource>>)
    ensures apiVersion.None? || kind.None? ==> r == Thrown(NullPointer)
    ensures c.namespace.None? && c.configNamespace.None? ==> r == Thrown(NullPointer)
    ensures apiVersion.Some? && kind.Some? && c.namespace.Some? ==> r == GetResources(c, c.namespace, apiVersion, kind)
    ensures apiVersion.Some? && kind.Some? && c.namespace.None? ==> r == GetResources(c, c.configNamespace, apiVersion, kind)
  {
    if apiVersion.None? || kind.None? then Thrown(NullPointer)
    else
      var namespace := if c.namespace.None? then c.configNamespace else c.namespace;
      GetResources(c, namespace, apiVersion, kind)
  }
}

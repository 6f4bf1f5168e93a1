# kgrep, modelled in Dafny

kgrep is a command-line tool that searches Kubernetes objects and container
logs for a text pattern, much like `grep`. The tool has a Go implementation and
an older Java one. This project models the core of both and proves properties
of that model:

- **Go resource search** (`internal/resource`). Building a searcher from the
  cluster configuration and clients. Resolving the resource names of a kind,
  with a retry without namespace in the call and a retry on the text before
  the first `.` of a dotted kind. Fetching one object's YAML. Matching its
  lines ignoring case. Discovering a kind's API version. Rewriting Kubernetes
  errors with a hint for the user.
- **Go log search** (`internal/log`). Filtering pods by name. Choosing the
  container names. Scanning each log line by line with a case-insensitive
  match. Sorting the messages by text, or by pod, container and line.
- **Go commands** (`cmd/`). Checking the `logs`, `pods`, `configmaps`,
  `secrets` and `resources` flags. Parsing the comma-separated namespace list.
  Choosing what to search, and the error messages each step reports.
- **Java plain-text grep** (`Grep.run`), the Java log grepper with its two
  sort orders, `Kgrep.run`, and the generic resource retriever's kind and
  API-version handling.

The cluster is not modelled. What a client would answer is a parameter: a
total function stored in a datatype (`Environment`, `Clientset`, `KubeGet`,
`PodApi`, `Reader`, `Cluster`, `Client`). Every operation is proved for every
such oracle.

Modules, one concept each:

- `Text`: Go and Java string functions. These are `strings.Contains`,
  `TrimSpace`, `Split`, ASCII `ToLower`/`ToUpper`/`EqualFold`, `bufio`'s line
  scanner, Java's `String.split` (which drops trailing empty strings) and
  code-point string order.
- `GoErrors`: Go error values: a plain message, a Kubernetes status error, or
  `fmt.Errorf("%w")`-style wrapping with `errors.Is`.
- `KubeErrors`: `wrapKubernetesError`.
- `LineMatch`: the shared definition of "the matching lines, numbered from 1".
- `ResourceSearcher`, `LogGrepper`: the two Go packages.
- `SearchCommands`, `LogsCommand`: the Go commands.
- `JavaLang`: Java exceptions and the returned-or-thrown outcome of a call.
- `JavaGrep`, `JavaLogs`, `JavaResources`: the Java classes.

Loops in the source are `method`s with loop invariants. Each method is proved
equal to a specification function, and the lemmas hold the properties.
`sortMessages` sorts an `array` in place and is proved to return a sorted
permutation. Go's `Searcher` and `LogGrepper` are never changed after they are
built, so they are datatypes.

Some behaviour of the code is easy to misread; the model follows the code:

- Neither the name lookup nor the YAML fetch has a shortcut for core kinds.
- `Search` never calls `discoverAPIVersionAndKind`, and never reads the
  searcher's `apiVersion` (`ApiVersionDoesNotChangeSearch`).
- The searcher's `resourceName` is never set.
- Every `Occurrence` has an empty `Namespace`.
- Sorting by `MESSAGE` compares the raw message text. Only the sort key given
  by the user is upper-cased.
- In the `logs` command, an error in an explicitly named namespace aborts the
  whole command. An error in the default namespace is dropped.
- The discovery error says "could not find API version for kind", starting
  with a lowercase letter.
- The `len(parts) >= 2` guard of the dotted-kind fallback is always true
  (`DotSegmentGuardHolds`).
- The error branch of `SearchWithoutNamespace` cannot be reached: it returns
  whatever `Search` returns.

## Model

| member | source | states |
|---|---|---|
| KubeErrors.WrapKubernetesError | internal/resource/errors.go:11-32 | nil stays nil. An unauthorized error gets the login hint, then a forbidden one the permission hint, then a missing-kubeconfig one the configuration hint, in that order of precedence. Each hint goes in front of the original message and the original stays on the error chain. Any other error comes back unchanged. |
| KubeErrors.UnauthorizedInsideContext | internal/resource/errors.go:16-18 | A 401 status wrapped in context is still found through the chain. It gets the login hint, and the context text stays in the message. |
| KubeErrors.MissingConfigurationIgnoresCase | internal/resource/errors.go:24-29 | Any of the three kubeconfig phrases, in any ASCII case and anywhere in the message, triggers the configuration hint. |
| ResourceSearcher.Connect | internal/resource/resource_searcher.go:33-54 | The construction fails exactly when the config, the clientset or the dynamic client fails, and each failure gets its own message, in that order. The kubeGet client is optional. A new searcher has an empty type, kind, apiVersion and resource name. |
| ResourceSearcher.NewResourceSearcher | internal/resource/resource_searcher.go:32-64 | It fails exactly when the shared construction fails, with the same error. Otherwise it is that searcher with the resource type and kind set. |
| ResourceSearcher.NewGenericResourceSearcher | internal/resource/resource_searcher.go:67-99 | The same, with apiVersion and kind set. |
| ResourceSearcher.NewAutoDiscoveryResourceSearcher | internal/resource/resource_searcher.go:102-133 | The same, with only the kind set. |
| ResourceSearcher.ConstructorsAgree | internal/resource/resource_searcher.go:32-133 | The three constructors fail together with the same error. On success they have the same clients and an empty resource name. |
| ResourceSearcher.DefaultNamespace | internal/resource/resource_searcher.go:187-205 | The result is never empty. It is the kubeconfig's namespace when that one is readable and non-empty. A result other than "default" is the configured namespace. |
| ResourceSearcher.DotSegmentGuardHolds | internal/resource/resource_searcher.go:235-240 | A kind with a "." splits into at least two parts, and its first segment differs from the kind. |
| ResourceSearcher.Lookups | internal/resource/resource_searcher.go:215-258 | The attempts are tried in order: the kind in the namespace, the kind without namespace (only when a namespace was given), then the first segment in the same two ways (only when the kind has "." but no ".v"). Full-kind attempts come first, and the namespaced one comes before the one without namespace. |
| ResourceSearcher.FirstListed | internal/resource/resource_searcher.go:215-258 | The index of the first attempt whose listing succeeds, and every earlier attempt failed. None when all failed. |
| ResourceSearcher.NamesOf | internal/resource/resource_searcher.go:217-221 | One name per listed item, in order. |
| ResourceSearcher.CollectNames | internal/resource/resource_searcher.go:217-221 | The collecting loop returns exactly the items' names. |
| ResourceSearcher.GetGenericResourceNames | internal/resource/resource_searcher.go:208-261 | Equal to the lookup chain: no kubeGet client is an error, the first successful listing gives the names, and the error of the first attempt is reported when all fail. |
| ResourceSearcher.GenericNamesFirstSuccess | internal/resource/resource_searcher.go:215-260 | Names come from the first attempt that lists and every earlier attempt failed. An error means every attempt failed, with the message "error getting <kind> resources: " followed by the first attempt's error. |
| ResourceSearcher.FindItem | internal/resource/resource_searcher.go:273-277 | The first item with the given name, or none when no item has it. |
| ResourceSearcher.FindYAML | internal/resource/resource_searcher.go:273-278 | The search loop returns the YAML of the first item with that name, or "<kind> <name> not found". |
| ResourceSearcher.GetGenericResourceYAML | internal/resource/resource_searcher.go:264-321 | Equal to the YAML lookup: the first listing that succeeds decides. |
| ResourceSearcher.NotFoundIsFinal | internal/resource/resource_searcher.go:271-278 | When the namespaced listing succeeds without the name, later lookups are not tried and the answer is "not found". |
| ResourceSearcher.ListedNamesHaveYAML | internal/resource/resource_searcher.go:208-321 | With a cluster that does not change during the command, every name the name lookup returns has its YAML in the same listing. |
| ResourceSearcher.OccurrencesOf | internal/resource/resource_searcher.go:174-182 | One occurrence per matching line, with the resource name, an empty namespace, the line number and the text. |
| ResourceSearcher.SearchResource | internal/resource/resource_searcher.go:165-184 | The loop returns exactly the occurrences of the YAML's matching lines. A YAML error gives none. |
| ResourceSearcher.ResourceResultExactly | internal/resource/resource_searcher.go:165-184 | An occurrence is reported if and only if its line of the YAML contains the pattern ignoring case. Occurrences are in increasing line order. |
| ResourceSearcher.ResourceResultEmptyPattern | internal/resource/resource_searcher.go:172-182 | The empty pattern reports every line of the YAML, including the final empty piece after a trailing newline. |
| ResourceSearcher.Search | internal/resource/resource_searcher.go:145-162 | Equal to the search result: no clientset is an error, a name-lookup error is wrapped as "error getting resources: ", and otherwise each name's occurrences are collected in order. |
| ResourceSearcher.CollectedBelongs | internal/resource/resource_searcher.go:154-161 | Every occurrence names one of the looked-up resources and has an empty namespace. |
| ResourceSearcher.SearchNeedsClientset | internal/resource/resource_searcher.go:146-148 | No clientset, or no kubeGet client, gives its own error. |
| ResourceSearcher.SearchWithoutNamespace | internal/resource/resource_searcher.go:136-142 | Equal to searching the default namespace. |
| ResourceSearcher.FindResource | internal/resource/resource_searcher.go:356-360 | The first resource in list order whose kind equals the wanted one ignoring case: it is in the list, it matches, and every resource before it does not. None exactly when no resource matches. |
| ResourceSearcher.ScanResources | internal/resource/resource_searcher.go:356-360 | The innermost loop equals FindResource, so it returns the first resource whose kind matches ignoring case. |
| ResourceSearcher.FindInVersionsMatch | internal/resource/resource_searcher.go:345-361 | A match found in one of the group's versions is a real match there, using the bare version for the core group. None is found exactly when no version has a match. |
| ResourceSearcher.FindInVersionsFirst | internal/resource/resource_searcher.go:345-361 | A match found is the first matching resource of some version, and every earlier version of the group either cannot be listed or has no matching kind. When none is found, every version of the group cannot be listed or has no matching kind. |
| ResourceSearcher.ScanVersions | internal/resource/resource_searcher.go:345-361 | The loop over one group's versions equals FindInVersions: a version whose resources cannot be listed is skipped, and the first match wins (FindInVersionsFirst). |
| ResourceSearcher.FindInGroupsMatch | internal/resource/resource_searcher.go:339-362 | A match comes from some served group and version. None exactly when none has one. |
| ResourceSearcher.FindInGroupsFirst | internal/resource/resource_searcher.go:339-362 | A match found is the match of some group's versions, and every earlier group's versions have none. When none is found, no group has one. |
| ResourceSearcher.DiscoverAPIVersionAndKind | internal/resource/resource_searcher.go:334-365 | Equal to discovery: no clientset, an API-group error, the first match in catalogue order (DiscoveryFirst), or "could not find API version for kind". |
| ResourceSearcher.DiscoveryFindsMatch | internal/resource/resource_searcher.go:339-364 | When any served group version lists a matching kind, discovery succeeds. |
| ResourceSearcher.DiscoverySound | internal/resource/resource_searcher.go:339-362 | A successful discovery names a served group version and a resource there whose kind matches ignoring case. |
| ResourceSearcher.DiscoveryFirst | internal/resource/resource_searcher.go:339-362 | A successful discovery is the first match in catalogue order: the first matching resource of a group version, where every earlier version of that group, and every version of every earlier group, cannot be listed or has no matching kind. |
| LineMatch.HitsExactly | internal/resource/resource_searcher.go:174-182 | A numbered line is a hit if and only if it is that line of the input and it contains the pattern (ignoring case when asked). |
| LineMatch.HitsOrdered | internal/log/log_grepper.go:219-235 | There are no more hits than lines. Hit numbers are in range and strictly increasing. |
| LineMatch.HitsEveryLine | java/src/main/java/com/thegreatapi/kgrep/grep/Grep.java:11-20 | When every line matches, each line is a hit, with its number. |
| LineMatch.EmptyPatternHitsAll | internal/log/log_grepper.go:203-217 | The empty pattern matches every line. |
| JavaGrep.Run | java/src/main/java/com/thegreatapi/kgrep/grep/Grep.java:11-20 | The loop returns exactly the case-sensitive hits, numbered from 1, in order. The same method in src/main/java/com/thegreatapi/kgrep/Grep.java, lines 11-20, differs only in being package-private. |
| LogGrepper.NewLogGrepper | internal/log/log_grepper.go:50-68 | It fails exactly when the config or the clientset fails, with the matching message. On success both are kept. |
| LogGrepper.GetPods | internal/log/log_grepper.go:140-159 | The pods of the namespace, or only those whose name contains the resource when one is given. A listing error passes through. |
| LogGrepper.FilterPodsExactly | internal/log/log_grepper.go:150-156 | A pod is kept if and only if it is listed and its name contains the resource. |
| LogGrepper.FilterPodsAppend | internal/log/log_grepper.go:150-156 | Filtering keeps order: filtering a concatenation concatenates the filtered parts. |
| LogGrepper.EmptyFilterKeepsAll | internal/log/log_grepper.go:150-156 | The empty filter keeps every pod. |
| LogGrepper.ContainerNamesOf | internal/log/log_grepper.go:181-197 | The spec containers' names when there are any, otherwise the names from the container statuses, in order. |
| LogGrepper.GetContainerNames | internal/log/log_grepper.go:181-197 | The loops return exactly those names. |
| LogGrepper.MessagesOf | internal/log/log_grepper.go:226-232 | One message per hit, with the pod, the container, the line number and the text. |
| LogGrepper.SearchLogs | internal/log/log_grepper.go:200-236 | Both loops, the empty-pattern one and the matching one, return the messages of the log's scanned lines that contain the pattern ignoring case. |
| LogGrepper.ScanEveryLine | internal/log/log_grepper.go:203-217 | The empty-pattern loop gives one message per scanned line, numbered from 1. |
| LogGrepper.ScanMatchingLines | internal/log/log_grepper.go:219-235 | The matching loop gives a message for each line that contains the pattern ignoring case, with its number counted over all lines. |
| LogGrepper.LogMessagesExactly | internal/log/log_grepper.go:219-235 | A message is reported if and only if it is that line of the scanned log and contains the pattern ignoring case. |
| LogGrepper.MessagesOfHits | internal/log/log_grepper.go:222-233 | The same over any sequence of lines. |
| LogGrepper.LogMessagesEmptyPattern | internal/log/log_grepper.go:203-217 | The empty pattern reports every scanned line. A final newline adds no empty line. |
| LogGrepper.SearchPodLogs | internal/log/log_grepper.go:162-178 | The messages of every container of the pod, in container order, with logs read in the pod's own namespace. A container whose log cannot be read is skipped. |
| LogGrepper.UnreadableLogsYieldNothing | internal/log/log_grepper.go:168-171 | When no container's log can be read, the pod gives no messages. |
| LogGrepper.ContainerMessagesBelong | internal/log/log_grepper.go:162-178 | Every message names the pod and one of its containers. |
| LogGrepper.KeyOf | internal/log/log_grepper.go:239-266 | The sort key is chosen on the upper-cased sort value: MESSAGE or POD_AND_CONTAINER, otherwise none. |
| LogGrepper.GreaterTransitive | internal/log/log_grepper.go:241-266 | The exchange condition is transitive for both keys. |
| LogGrepper.GreaterAsymmetric | internal/log/log_grepper.go:241-266 | The exchange condition never holds both ways. |
| LogGrepper.SortedByMessageAscends | internal/log/log_grepper.go:241-249 | Sorted by message means the texts are in non-decreasing order. |
| LogGrepper.SortedByPodAscends | internal/log/log_grepper.go:250-266 | Sorted by pod means ordered by pod, then container, then line number. |
| LogGrepper.ExchangeSort | internal/log/log_grepper.go:241-266 | The nested exchange loops leave the array sorted by the key and a permutation of its old contents. |
| LogGrepper.ExchangeRound | internal/log/log_grepper.go:244-248 | After the inner loop for position i, the element at i is not greater than any later one, and the earlier positions keep that property. |
| LogGrepper.ExchangeIfGreater | internal/log/log_grepper.go:245-247 | One comparison exchanges the two elements when the first is greater. The earlier positions keep their property and the contents are permuted. |
| LogGrepper.ExchangeStep | internal/log/log_grepper.go:245-247 | Exchanging with a later smaller element keeps the earlier positions in order, leaves the new element at i not greater than the ones it has passed, and permutes the contents. |
| LogGrepper.SortMessages | internal/log/log_grepper.go:239-270 | A known key gives a sorted permutation. An unknown sort value leaves the messages unchanged. |
| LogGrepper.Sorting | internal/log/log_grepper.go:239-270 | sortMessages applied to a slice returns a sorting of it by the selected key, or the slice itself. |
| LogGrepper.CollectMessages | internal/log/log_grepper.go:104-108 | The pod loop joins every pod's messages in pod order. |
| LogGrepper.Grep | internal/log/log_grepper.go:94-111 | No clientset is an error and a pod-listing error is wrapped as "error getting pods: ". Otherwise the answer is a sorting of every pod's messages, taken in pod order. |
| LogGrepper.GrepNamespace | internal/log/log_grepper.go:89-91 | Grep in the namespace without a resource filter. |
| LogGrepper.GrepWithoutNamespace | internal/log/log_grepper.go:71-77 | Grep in the default namespace without a resource filter. |
| LogGrepper.GrepResourceWithoutNamespace | internal/log/log_grepper.go:80-86 | Grep in the default namespace with the resource filter. |
| LogsCommand.ParseNamespaceList | cmd/logs.go:37-51 | The loop returns the trimmed tokens of the comma split, with empties and repeats skipped, in first-seen order. |
| LogsCommand.NamespaceListDistinct | cmd/logs.go:40-50 | No namespace is listed twice. |
| LogsCommand.NamespaceListElements | cmd/logs.go:41-50 | A namespace is listed if and only if it is a non-empty trimmed token of the flag. |
| LogsCommand.NamespaceListTrimmed | cmd/logs.go:42 | Every listed namespace is already trimmed. |
| LogsCommand.NamespaceListPrefix | cmd/logs.go:41-51 | Parsing a prefix of the tokens gives a prefix of the list, so first-seen order is kept. |
| LogsCommand.Namespaces | cmd/logs.go:37-57 | An empty flag gives the single entry "" (the default namespace). |
| LogsCommand.NamespacesTrimmed | cmd/logs.go:37-61 | Every entry is trimmed. The "" entry appears only when the flag is empty. |
| LogsCommand.GrepEntry | cmd/logs.go:61-75 | An explicit namespace is searched as given and "" in the default namespace, each with or without the resource filter. |
| LogsCommand.AskEntries | cmd/logs.go:59-83 | The entries are grepped in order until an explicit namespace fails. Every earlier answer succeeded or belongs to the default entry, and the messages so far are joined. The failure is reported exactly when the loop stopped early. |
| LogsCommand.SearchNamespaces | cmd/logs.go:59-87 | Each entry is asked in order. The first error on an explicit namespace stops the loop and is reported as "failed to search logs in namespace \"ns\": ...". An error on the default entry adds nothing. Otherwise every answer is merged in order, and re-sorted when there are several entries. |
| LogsCommand.RunLogs | cmd/logs.go:23-92 | A missing pattern, a grepper that cannot be built and an empty namespace list each give their own error, in that order. Otherwise the answer is as in SearchNamespaces. |
| LogsCommand.DefaultEntryErrorIsSwallowed | cmd/logs.go:77-82 | Without the flag, a failing default-namespace search makes the command succeed with no messages. |
| LogsCommand.SingleNamespaceKeepsOrder | cmd/logs.go:85-87 | With one entry, the grepper's messages are returned as they are. |
| LogsCommand.SeveralNamespacesResorted | cmd/logs.go:85-87 | With several entries, the result is a permutation of all the merged messages, sorted when the key is known. |
| SearchCommands.ChooseScope | cmd/pods.go:23-52 | "pattern is required" if and only if the pattern is empty. Then the flag conflict if and only if both --all-namespaces and a namespace are given. Otherwise all namespaces, the given namespace, or the default one. |
| SearchCommands.WrapError | cmd/pods.go:37-52 | A success passes through. An error gets the command's prefix. |
| SearchCommands.RunTyped | cmd/configmaps.go:20-57 | The flag errors come first, then the searcher error. Otherwise the search of the chosen scope, with its error prefixed by "failed to search <type>: ". |
| SearchCommands.TypedOutcomeShape | cmd/secrets.go:20-60 | Every error is a flag error or carries one of the two command prefixes. A success means the flags and the construction were valid. Outside all-namespaces mode the success is the searcher's result. |
| SearchCommands.RunPods | cmd/pods.go:20-57 | Every error is a flag error, a searcher error or "failed to search pods: ...". A success passed the flag checks and the construction, and outside all-namespaces mode it is the searcher's result for pods. |
| SearchCommands.RunConfigMaps | cmd/configmaps.go:20-57 | The same for "configmaps". |
| SearchCommands.RunSecrets | cmd/secrets.go:20-60 | The same for "secrets". |
| SearchCommands.FlagErrorsIgnoreCluster | cmd/pods.go:23-29 | A flag error is reported whatever the cluster, before any client is built. |
| SearchCommands.DefaultScopeIsDefaultNamespace | cmd/configmaps.go:47-52 | Giving no namespace is the same as naming the default one. |
| SearchCommands.ScopedOccurrencesBelong | cmd/secrets.go:40-55 | A namespaced success reports only resources that the name lookup returned, each with empty namespace. |
| SearchCommands.RunResources | cmd/resources.go:21-56 | A generic searcher is built when apiVersion is given and an auto-discovery one otherwise, each with its own error. Then the namespace or the default one is searched, with errors prefixed by "failed to search resources: ". |
| SearchCommands.CollectedIgnoresApiVersion | internal/resource/resource_searcher.go:154-161 | Collecting occurrences never reads the searcher's apiVersion. |
| SearchCommands.ApiVersionDoesNotChangeSearch | cmd/resources.go:28-51 | With a working cluster, the resources command gives the same answer with or without --api-version. |
| SearchCommands.ResourcesSearchEmptyPattern | cmd/resources.go:41-51 | The resources command accepts an empty pattern and searches with it. |
| JavaLogs.ToMessages | src/main/java/com/thegreatapi/kgrep/log/LogGrepper.java:69-71 | One log message per occurrence, with the pod, container, text and line number. |
| JavaLogs.ReadLogOf | src/main/java/com/thegreatapi/kgrep/log/LogGrepper.java:62-72 | The occurrences of the container's log split into lines, turned into messages. |
| JavaLogs.ReadLogExactly | src/main/java/com/thegreatapi/kgrep/log/LogGrepper.java:62-72 | A message is read if and only if it is that line of the split log, for that pod and container, and contains the pattern (case-sensitive). |
| JavaLogs.ContainerLogsExactly | src/main/java/com/thegreatapi/kgrep/log/LogGrepper.java:44-48 | A message is collected from a pod if and only if it comes from a container that is not terminated. |
| JavaLogs.FetchedExactly | src/main/java/com/thegreatapi/kgrep/log/LogGrepper.java:42-50 | A message is collected if and only if it comes from a running container of a pod whose name contains the resource. |
| JavaLogs.FetchLogs | src/main/java/com/thegreatapi/kgrep/log/LogGrepper.java:40-50 | The pod loop collects exactly those messages, in pod and container order. |
| JavaLogs.ReadRunningContainers | src/main/java/com/thegreatapi/kgrep/log/LogGrepper.java:44-48 | The container loop reads only the containers that are not terminated. |
| JavaLogs.InsertByMessagePermutes | src/main/java/com/thegreatapi/kgrep/log/LogGrepper.java:55 | Inserting adds the element and loses none. |
| JavaLogs.InsertByMessageSorted | src/main/java/com/thegreatapi/kgrep/log/LogGrepper.java:55 | Inserting into a list sorted by text keeps it sorted. |
| JavaLogs.InsertByMessageStable | src/main/java/com/thegreatapi/kgrep/log/LogGrepper.java:55 | The inserted element goes after the elements with the same text. |
| JavaLogs.SortByMessageFacts | src/main/java/com/thegreatapi/kgrep/log/LogGrepper.java:55 | The sort by text is sorted, a permutation, and stable: messages with equal text keep their order. |
| JavaLogs.Grep | src/main/java/com/thegreatapi/kgrep/log/LogGrepper.java:39-60 | POD_AND_CONTAINER returns the messages in fetch order, and MESSAGE returns them stably sorted by text. Any other sort order throws UnsupportedOperationException("Sorting by X is not supported"). |
| JavaLogs.GrepInFetchOrder | src/main/java/com/thegreatapi/kgrep/log/LogGrepper.java:35-37 | The three-argument grep returns the messages in fetch order. |
| JavaLogs.KeptAreHitTexts | src/main/java/com/thegreatapi/kgrep/Kgrep.java:50-53 | The line filter keeps exactly the texts that Grep.run reports. |
| JavaLogs.KgrepReadsLikeLogGrepper | src/main/java/com/thegreatapi/kgrep/Kgrep.java:45-54 | Kgrep reads the same lines as the log grepper, without line numbers. |
| JavaLogs.KgrepContainersSound | src/main/java/com/thegreatapi/kgrep/Kgrep.java:38-40 | Each line contains the pattern and comes from a running container of the pod. |
| JavaLogs.KgrepFetchedSound | src/main/java/com/thegreatapi/kgrep/Kgrep.java:36-40 | Each line contains the pattern and comes from a running container of a pod whose name contains the resource. |
| JavaLogs.KeptContains | src/main/java/com/thegreatapi/kgrep/Kgrep.java:50-51 | Every kept line is one of the log's lines and contains the pattern. |
| JavaLogs.Run | src/main/java/com/thegreatapi/kgrep/Kgrep.java:27-43 | The nested loops return exactly the filtered lines. The pods come from the client's own listing, which ignores the namespace argument, and the logs are read in the given namespace. |
| JavaResources.FirstKindMatch | src/main/java/com/thegreatapi/kgrep/resource/GenericResourceRetriever.java:43-45 | The first served resource whose kind equals the wanted one ignoring case, or none. |
| JavaResources.ResolveKind | src/main/java/com/thegreatapi/kgrep/resource/GenericResourceRetriever.java:47-52 | The kind used equals the caller's ignoring case. It is the first matching resource's own spelling, or the caller's kind when nothing matches. |
| JavaResources.At | src/main/java/com/thegreatapi/kgrep/resource/GenericResourceRetriever.java:57-58 | Array indexing, which throws ArrayIndexOutOfBoundsException past the end. |
| JavaResources.ContextFor | src/main/java/com/thegreatapi/kgrep/resource/GenericResourceRetriever.java:55-64 | Without "/" the group is empty and the version is the whole apiVersion. The context is always namespaced with the given kind. Only an apiVersion with "/" can throw. |
| JavaResources.ContextSplitsAtFirstSlash | src/main/java/com/thegreatapi/kgrep/resource/GenericResourceRetriever.java:57-58 | The group is the text before the first "/" and the version is the text up to the next "/" or the end. |
| JavaResources.TrailingSlashThrows | src/main/java/com/thegreatapi/kgrep/resource/GenericResourceRetriever.java:58 | An apiVersion such as "apps/" throws ArrayIndexOutOfBoundsException for index 1 of length 1. |
| JavaResources.GetResources | src/main/java/com/thegreatapi/kgrep/resource/GenericResourceRetriever.java:36-53 | A null argument throws NullPointerException, and so does a null resource list for the apiVersion, which is dereferenced unchecked. A returned listing had non-null arguments and a resource list. |
| JavaResources.GetResourcesQuery | src/main/java/com/thegreatapi/kgrep/resource/GenericResourceRetriever.java:36-63 | A returned listing is for a namespaced context, in the caller's namespace, for a kind equal to the caller's ignoring case. |
| JavaResources.ListingExceptionPropagates | src/main/java/com/thegreatapi/kgrep/resource/GenericResourceRetriever.java:56-63 | Once the context is built, an exception thrown by the listing is what getResources throws. |
| JavaResources.UnknownKindKept | src/main/java/com/thegreatapi/kgrep/resource/GenericResourceRetriever.java:50-51 | A kind that no served resource matches is used as given. |
| JavaResources.GetResourcesInClientNamespace | src/main/java/com/thegreatapi/kgrep/resource/GenericResourceRetriever.java:25-34 | The client's namespace is used, or the configuration's when the client has none. Null arguments throw. |

## Left out

- Talking to the cluster: the configuration loading, the clients, the REST
  listings, discovery and log streaming are oracles given as parameters. Their
  own behaviour is not modelled.
- `objectToYAML`: each listed item is paired with an uninterpreted YAML text
  or error.
- `SearchAllNamespaces`: the all-namespaces search is a parameter of the
  typed commands.
- The exported `SortMessages` is the same as `sortMessages` and appears once.
- Concurrency: the commands run sequentially. There is nothing concurrent in
  the core.
- Printing, colours and highlighting in `cmd/utils.go`. Also the cobra and
  picocli wiring, `root.go`, `main.go` and `VersionProvider`.
- `cmd/serviceaccounts.go` and `src/main/java/com/thegreatapi/kgrep/LogGrepper.java`
  are not part of this model. They repeat modelled code.
- `bufio.Scanner`'s 64 KiB token limit.
- Text: only ASCII letters change case. Go's `strings.EqualFold` and Java's
  `equalsIgnoreCase` with Unicode folding are not modelled.
- Text: Java's `compareTo` orders UTF-16 units and `%q` escapes characters.
  Both are modelled on code points and plain quotes.
- JavaLogs.LogLines: `System.lineSeparator()` is taken to be "\n".
- JavaLogs: Java nulls from fabric8 getters, fabric8 exceptions and the
  read-only wrapping of the returned lists are not modelled. The log reader
  never fails.
- JavaResources.GetResources: these are not modelled: a null
  `getResources()` list inside a non-null resource list, a null `getKind()`
  of a served resource, a null `client.getConfiguration()`, a null
  `list().getItems()`, and exceptions thrown by `getApiResources` itself.
  Each would throw NullPointerException or the client's exception. A null
  resource list and a throwing listing are modelled.
- ResourceSearcher.ListedNamesHaveYAML: the cluster does not change during
  one command. Every repeated listing returns the same answer, so this lemma
  holds. For the same reason, `Search` never loses a listed resource to a
  later "<kind> <name> not found", which `searchResource` would drop
  silently.
- JavaLogs.Grep: the other `SortBy` constants appear only as `OtherSortBy`,
  with their names.
- LogGrepper.ExchangeSort: the operation's sortedness and permutation are
  proved. The exact order of equal elements (the sort is not stable) is not
  stated.
- The unit tests and their fixtures. The general lemmas cover the behaviour
  they check.

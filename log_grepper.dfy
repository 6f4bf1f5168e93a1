/** internal/log/log_grepper.go: list the pods of a namespace, keep those whose
    name contains a filter, read the log of each container and keep the lines
    that contain the pattern ignoring case, then sort the messages by one of
    two keys.

    The pod listing and the log reader are oracles held in the grepper's value;
    the grepper itself is never changed after construction, so it is a
    datatype. The default namespace is the rule of the resource searcher
    (ResourceSearcher.DefaultNamespace): both files read the kubeconfig the same
    way. */
module LogGrepper {
  import opened Text
  import opened GoErrors
  import opened LineMatch
  import ResourceSearcher

  // ---------------------------------------------------------------------
  // Data model
  // ---------------------------------------------------------------------

  datatype Container = Container(name: string)
  datatype ContainerStatus = ContainerStatus(name: string)

  /** A pod: its name and namespace, the containers of its spec and the
      container statuses of its status. */
  datatype Pod = Pod(name: string, namespace: string, containers: seq<Container>, containerStatuses: seq<ContainerStatus>)

  /** CoreV1().Pods(namespace).List as an oracle. */
  datatype PodApi = PodApi(list: string -> Result<seq<Pod>>)

  /** Reader.GetPodLogs(namespace, pod, container) as an oracle. */
  datatype Reader = Reader(getPodLogs: (string, string, string) -> Result<string>)

  datatype Grepper = Grepper(clientset: Option<PodApi>, config: Option<ResourceSearcher.Config>, logReader: Reader)

  /** One matching log line. */
  datatype Message = Message(podName: string, containerName: string, lineNumber: int, message: string)

  /** The outcomes of loading the kubeconfig and creating the clientset; the
      log reader is the one built on that clientset. */
  datatype LogEnvironment = LogEnvironment(config: Result<ResourceSearcher.Config>, clientset: Result<PodApi>, logReader: Reader)

  /** NewLogGrepper: the config error, then the clientset error, or a grepper
      holding both and the reader. */
  function NewLogGrepper(env: LogEnvironment): (r: Result<Grepper>)
    ensures env.config.Err? ==> r == Err(Errorf("error creating Kubernetes config: ", env.config.error))
    ensures env.config.Ok? && env.clientset.Err? ==>
      r == Err(Errorf("error creating Kubernetes clientset: ", env.clientset.error))
    ensures r.Ok? <==> env.config.Ok? && env.clientset.Ok?
    ensures r.Ok? ==> r.value.clientset == Some(env.clientset.value) && r.value.config == Some(env.config.value)
  {
    if env.config.Err? then Err(Errorf("error creating Kubernetes config: ", env.config.error))
    else if env.clientset.Err? then Err(Errorf("error creating Kubernetes clientset: ", env.clientset.error))
    else Ok(Grepper(Some(env.clientset.value), Some(env.config.value), env.logReader))
  }

  // ---------------------------------------------------------------------
  // getPods
  // ---------------------------------------------------------------------

  /** The pods whose name contains `resource` (matching case), in list order. */
  function FilterPods(pods: seq<Pod>, resource: string): seq<Pod>
    decreases |pods|
  {
    if |pods| == 0 then []
    else
      var init := FilterPods(pods[..|pods| - 1], resource);
      if Contains(pods[|pods| - 1].name, resource) then init + [pods[|pods| - 1]] else init
  }

  /** What getPods answers: the listing error, all pods for an empty filter,
      otherwise the filtered pods. */
  function PodsFor(api: PodApi, namespace: string, resource: string): Result<seq<Pod>> {
    match api.list(namespace)
    case Err(e) => Err(e)
    case Ok(pods) => if resource == "" then Ok(pods) else Ok(FilterPods(pods, resource))
  }

  /** getPods. The source dereferences the clientset, so it must be present. */
  method GetPods(g: Grepper, namespace: string, resource: string) returns (r: Result<seq<Pod>>)
    requires g.clientset.Some?
    ensures r == PodsFor(g.clientset.value, namespace, resource)
  {
    var pods := g.clientset.value.list(namespace);
    if pods.Err? {
      return Err(pods.error);
    }
    if resource == "" {
      return Ok(pods.value);
    }
    var items := pods.value;
    var filtered := [];
    var i := 0;
    while i < |items|
      invariant 0 <= i <= |items|
      invariant filtered == FilterPods(items[..i], resource)
    {
      assert items[..i + 1][..i] == items[..i];
      if Contains(items[i].name, resource) {
        filtered := filtered + [items[i]];
      }
      i := i + 1;
    }
    assert items[..|items|] == items;
    return Ok(filtered);
  }

  /** A pod survives the filter exactly when it was listed and its name
      contains the filter; there are never more survivors than pods. */
  lemma {:induction false} FilterPodsExactly(pods: seq<Pod>, resource: string)
    ensures |FilterPods(pods, resource)| <= |pods|
    ensures forall p :: p in FilterPods(pods, resource) <==> p in pods && Contains(p.name, resource)
    decreases |pods|
  {
    if |pods| > 0 {
      var init := pods[..|pods| - 1];
      FilterPodsExactly(init, resource);
      assert pods == init + [pods[|pods| - 1]];
    }
  }

  /** The filter keeps list order: filtering a concatenation filters each part. */
  lemma {:induction false} FilterPodsAppend(a: seq<Pod>, b: seq<Pod>, resource: string)
    ensures FilterPods(a + b, resource) == FilterPods(a, resource) + FilterPods(b, resource)
    decreases |b|
  {
    if |b| == 0 {
      assert a + b == a;
    } else {
      var b' := b[..|b| - 1];
      assert (a + b)[..|a + b| - 1] == a + b';
      assert (a + b)[|a + b| - 1] == b[|b| - 1];
      FilterPodsAppend(a, b', resource);
    }
  }

  /** The empty filter is the same as no filter, so the shortcut for an empty
      resource agrees with filtering. */
  lemma {:induction false} EmptyFilterKeepsAll(pods: seq<Pod>)
    ensures FilterPods(pods, "") == pods
    decreases |pods|
  {
    if |pods| > 0 {
      EmptyFilterKeepsAll(pods[..|pods| - 1]);
      ContainsEmpty(pods[|pods| - 1].name);
      assert pods[..|pods| - 1] + [pods[|pods| - 1]] == pods;
    }
  }

  // ---------------------------------------------------------------------
  // getContainerNames
  // ---------------------------------------------------------------------

  /** The spec's container names, or the status names when the spec has none. */
  function ContainerNamesOf(pod: Pod): (names: seq<string>)
    ensures |pod.containers| > 0 ==>
      |names| == |pod.containers| && forall k :: 0 <= k < |names| ==> names[k] == pod.containers[k].name
    ensures |pod.containers| == 0 ==>
      |names| == |pod.containerStatuses| && forall k :: 0 <= k < |names| ==> names[k] == pod.containerStatuses[k].name
  {
    if |pod.containers| > 0 then seq(|pod.containers|, k requires 0 <= k < |pod.containers| => pod.containers[k].name)
    else seq(|pod.containerStatuses|, k requires 0 <= k < |pod.containerStatuses| => pod.containerStatuses[k].name)
  }

  method GetContainerNames(pod: Pod) returns (containers: seq<string>)
    ensures containers == ContainerNamesOf(pod)
  {
    containers := [];
    var i := 0;
    while i < |pod.containers|
      invariant 0 <= i <= |pod.containers|
      invariant |containers| == i && forall k :: 0 <= k < i ==> containers[k] == pod.containers[k].name
    {
      containers := containers + [pod.containers[i].name];
      i := i + 1;
    }
    if |containers| == 0 {
      var j := 0;
      while j < |pod.containerStatuses|
        invariant 0 <= j <= |pod.containerStatuses|
        invariant |containers| == j && forall k :: 0 <= k < j ==> containers[k] == pod.containerStatuses[k].name
      {
        containers := containers + [pod.containerStatuses[j].name];
        j := j + 1;
      }
    }
  }

  // ---------------------------------------------------------------------
  // searchLogs
  // ---------------------------------------------------------------------

  function MessagesOf(podName: string, containerName: string, hits: seq<Hit>): (r: seq<Message>)
    ensures |r| == |hits|
    ensures forall k :: 0 <= k < |hits| ==> r[k] == Message(podName, containerName, hits[k].lineNumber, hits[k].text)
  {
    seq(|hits|, k requires 0 <= k < |hits| => Message(podName, containerName, hits[k].lineNumber, hits[k].text))
  }

  lemma MessagesOfAppend(podName: string, containerName: string, hits: seq<Hit>, h: Hit)
    ensures MessagesOf(podName, containerName, hits + [h])
      == MessagesOf(podName, containerName, hits) + [Message(podName, containerName, h.lineNumber, h.text)]
  {
    var l := MessagesOf(podName, containerName, hits + [h]);
    var r := MessagesOf(podName, containerName, hits) + [Message(podName, containerName, h.lineNumber, h.text)];
    assert |l| == |r|;
    forall k | 0 <= k < |l| ensures l[k] == r[k] {
      if k < |hits| {
        assert (hits + [h])[k] == hits[k];
      }
    }
  }

  /** What searchLogs returns: the scanned lines that contain the pattern
      ignoring case, numbered over all lines. */
  function LogMessages(logs: string, pattern: string, podName: string, containerName: string): seq<Message> {
    MessagesOf(podName, containerName, Hits(ScanLines(logs), pattern, true))
  }

  /** searchLogs, with its separate loop for the empty pattern. */
  method SearchLogs(logs: string, pattern: string, podName: string, containerName: string) returns (messages: seq<Message>)
    ensures messages == LogMessages(logs, pattern, podName, containerName)
  {
    var lines := ScanLines(logs);
    if pattern == "" {
      messages := ScanEveryLine(lines, podName, containerName);
    } else {
      messages := ScanMatchingLines(lines, pattern, podName, containerName);
    }
  }

  /** The empty-pattern loop: every scanned line becomes a message. */
  method ScanEveryLine(lines: seq<string>, podName: string, containerName: string) returns (messages: seq<Message>)
    ensures messages == MessagesOf(podName, containerName, Hits(lines, "", true))
  {
    messages := [];
    var lineNumber := 1;
    while lineNumber <= |lines|
      invariant 1 <= lineNumber <= |lines| + 1
      invariant messages == MessagesOf(podName, containerName, Hits(lines[..lineNumber - 1], "", true))
    {
      HitsStep(lines, lineNumber - 1, "", true);
      EmptyPatternKeeps(lines[lineNumber - 1], true);
      MessagesOfAppend(podName, containerName, Hits(lines[..lineNumber - 1], "", true), Hit(lineNumber, lines[lineNumber - 1]));
      messages := messages + [Message(podName, containerName, lineNumber, lines[lineNumber - 1])];
      lineNumber := lineNumber + 1;
    }
    assert lines[..|lines|] == lines;
  }

  /** The matching loop: the lines that contain the pattern ignoring case. */
  method ScanMatchingLines(lines: seq<string>, pattern: string, podName: string, containerName: string) returns (messages: seq<Message>)
    ensures messages == MessagesOf(podName, containerName, Hits(lines, pattern, true))
  {
    messages := [];
    var lineNumber := 1;
    while lineNumber <= |lines|
      invariant 1 <= lineNumber <= |lines| + 1
      invariant messages == MessagesOf(podName, containerName, Hits(lines[..lineNumber - 1], pattern, true))
    {
      var line := lines[lineNumber - 1];
      HitsStep(lines, lineNumber - 1, pattern, true);
      if Contains(Lower(line), Lower(pattern)) {
        MessagesOfAppend(podName, containerName, Hits(lines[..lineNumber - 1], pattern, true), Hit(lineNumber, line));
        messages := messages + [Message(podName, containerName, lineNumber, line)];
      }
      lineNumber := lineNumber + 1;
    }
    assert lines[..|lines|] == lines;
  }

  /** A message of one container is exactly a scanned line that contains the
      pattern ignoring case, with its 1-based number among all lines. */
  lemma LogMessagesExactly(logs: string, pattern: string, podName: string, containerName: string)
    ensures var lines := ScanLines(logs);
      forall m :: m in LogMessages(logs, pattern, podName, containerName) <==>
        (m.podName == podName && m.containerName == containerName && 1 <= m.lineNumber <= |lines|
         && m.message == lines[m.lineNumber - 1] && Contains(Lower(m.message), Lower(pattern)))
  {
    MessagesOfHits(ScanLines(logs), pattern, podName, containerName);
  }

  /** The same over any sequence of lines. */
  lemma MessagesOfHits(lines: seq<string>, pattern: string, podName: string, containerName: string)
    ensures forall m :: m in MessagesOf(podName, containerName, Hits(lines, pattern, true)) <==>
        (m.podName == podName && m.containerName == containerName && 1 <= m.lineNumber <= |lines|
         && m.message == lines[m.lineNumber - 1] && Contains(Lower(m.message), Lower(pattern)))
  {
    var hits := Hits(lines, pattern, true);
    MessagesOfMembers(podName, containerName, hits);
    HitsExactly(lines, pattern, true);
    forall m: Message
      ensures Hit(m.lineNumber, m.message) in hits <==>
        (1 <= m.lineNumber <= |lines| && m.message == lines[m.lineNumber - 1] && Keeps(m.message, pattern, true))
    {
    }
  }

  /** A message is in MessagesOf exactly when it names the pod and the
      container and its number and text form one of the hits. */
  lemma MessagesOfMembers(podName: string, containerName: string, hits: seq<Hit>)
    ensures forall m :: m in MessagesOf(podName, containerName, hits) <==>
      m.podName == podName && m.containerName == containerName && Hit(m.lineNumber, m.message) in hits
  {
    var r := MessagesOf(podName, containerName, hits);
    forall m | m in r
      ensures m.podName == podName && m.containerName == containerName && Hit(m.lineNumber, m.message) in hits
    {
      var k :| 0 <= k < |r| && r[k] == m;
      assert hits[k] == Hit(m.lineNumber, m.message);
    }
    forall m: Message | m.podName == podName && m.containerName == containerName && Hit(m.lineNumber, m.message) in hits
      ensures m in r
    {
      var k :| 0 <= k < |hits| && hits[k] == Hit(m.lineNumber, m.message);
      assert r[k] == m;
    }
  }

  /** With the empty pattern there is one message per scanned line, numbered
      1..N in order; a final newline adds no line. */
  lemma LogMessagesEmptyPattern(logs: string, podName: string, containerName: string)
    ensures var lines := ScanLines(logs);
      var r := LogMessages(logs, "", podName, containerName);
      |r| == |lines| && forall k :: 0 <= k < |lines| ==> r[k] == Message(podName, containerName, k + 1, lines[k])
    ensures |logs| > 0 && logs[|logs| - 1] != '\n' ==>
      LogMessages(logs + "\n", "", podName, containerName) == LogMessages(logs, "", podName, containerName)
  {
    EmptyPatternHitsAll(ScanLines(logs), true);
    if |logs| > 0 && logs[|logs| - 1] != '\n' {
      ScanLinesFinalNewline(logs);
    }
  }

  // ---------------------------------------------------------------------
  // searchPodLogs and the collection loop of Grep
  // ---------------------------------------------------------------------

  /** The messages of the given containers of a pod, in container order; a
      container whose log cannot be read contributes nothing. */
  function ContainerMessages(reader: Reader, pod: Pod, containers: seq<string>, pattern: string): seq<Message>
    decreases |containers|
  {
    if |containers| == 0 then []
    else
      var init := ContainerMessages(reader, pod, containers[..|containers| - 1], pattern);
      var c := containers[|containers| - 1];
      match reader.getPodLogs(pod.namespace, pod.name, c)
      case Err(_) => init
      case Ok(logs) => init + LogMessages(logs, pattern, pod.name, c)
  }

  /** What searchPodLogs returns. */
  function PodMessages(reader: Reader, pod: Pod, pattern: string): seq<Message> {
    ContainerMessages(reader, pod, ContainerNamesOf(pod), pattern)
  }

  /** searchPodLogs: logs are read in the pod's own namespace. */
  method SearchPodLogs(g: Grepper, pod: Pod, pattern: string) returns (messages: seq<Message>)
    ensures messages == PodMessages(g.logReader, pod, pattern)
  {
    messages := [];
    var containers := GetContainerNames(pod);
    var i := 0;
    while i < |containers|
      invariant 0 <= i <= |containers|
      invariant messages == ContainerMessages(g.logReader, pod, containers[..i], pattern)
    {
      var container := containers[i];
      assert containers[..i + 1][..i] == containers[..i];
      var logs := g.logReader.getPodLogs(pod.namespace, pod.name, container);
      if logs.Err? {
        i := i + 1;
        continue;
      }
      var containerMessages := SearchLogs(logs.value, pattern, pod.name, container);
      messages := messages + containerMessages;
      i := i + 1;
    }
    assert containers[..|containers|] == containers;
  }

  /** A pod none of whose containers' logs can be read yields no messages (and
      no error). */
  lemma {:induction false} UnreadableLogsYieldNothing(reader: Reader, pod: Pod, containers: seq<string>, pattern: string)
    requires forall c :: c in containers ==> reader.getPodLogs(pod.namespace, pod.name, c).Err?
    ensures ContainerMessages(reader, pod, containers, pattern) == []
    decreases |containers|
  {
    if |containers| > 0 {
      var init := containers[..|containers| - 1];
      assert forall c :: c in init ==> c in containers;
      assert containers[|containers| - 1] in containers;
      UnreadableLogsYieldNothing(reader, pod, init, pattern);
    }
  }

  /** Every message of a pod carries that pod's name and one of its
      containers. */
  lemma {:induction false} ContainerMessagesBelong(reader: Reader, pod: Pod, containers: seq<string>, pattern: string)
    ensures forall m :: m in ContainerMessages(reader, pod, containers, pattern) ==>
      m.podName == pod.name && m.containerName in containers
    decreases |containers|
  {
    if |containers| > 0 {
      var init := containers[..|containers| - 1];
      var c := containers[|containers| - 1];
      ContainerMessagesBelong(reader, pod, init, pattern);
      forall m | m in ContainerMessages(reader, pod, containers, pattern)
        ensures m.podName == pod.name && m.containerName in containers
      {
        if m in ContainerMessages(reader, pod, init, pattern) {
          assert m.containerName in init;
        } else {
          var logs := reader.getPodLogs(pod.namespace, pod.name, c).value;
          var r := LogMessages(logs, pattern, pod.name, c);
          assert m in r;
          var k :| 0 <= k < |r| && r[k] == m;
        }
      }
    }
  }

  /** The messages of all pods, concatenated in pod order. */
  function AllMessages(reader: Reader, pods: seq<Pod>, pattern: string): seq<Message>
    decreases |pods|
  {
    if |pods| == 0 then []
    else AllMessages(reader, pods[..|pods| - 1], pattern) + PodMessages(reader, pods[|pods| - 1], pattern)
  }

  // ---------------------------------------------------------------------
  // sortMessages
  // ---------------------------------------------------------------------

  datatype SortKey = ByMessage | ByPodAndContainer

  /** The key selected by strings.ToUpper(sortBy); any other value selects
      none and leaves the order alone. */
  function KeyOf(sortBy: string): (k: Option<SortKey>)
    ensures k == Some(ByMessage) <==> Upper(sortBy) == "MESSAGE"
    ensures k == Some(ByPodAndContainer) <==> Upper(sortBy) == "POD_AND_CONTAINER"
  {
    if Upper(sortBy) == "MESSAGE" then Some(ByMessage)
    else if Upper(sortBy) == "POD_AND_CONTAINER" then Some(ByPodAndContainer)
    else None
  }

  /** The swap test of the exchange sort: x belongs after y. For MESSAGE the raw
      message texts are compared; for POD_AND_CONTAINER pod name, container
      name and line number in turn. */
  predicate Greater(key: SortKey, x: Message, y: Message) {
    match key
    case ByMessage => LexLess(y.message, x.message)
    case ByPodAndContainer =>
      LexLess(y.podName, x.podName)
      || (x.podName == y.podName
          && (LexLess(y.containerName, x.containerName)
              || (x.containerName == y.containerName && x.lineNumber > y.lineNumber)))
  }

  predicate Sorted(s: seq<Message>, key: SortKey) {
    forall k, l :: 0 <= k < l < |s| ==> !Greater(key, s[k], s[l])
  }

  lemma GreaterTransitive(key: SortKey, x: Message, y: Message, z: Message)
    requires Greater(key, x, y) && Greater(key, y, z)
    ensures Greater(key, x, z)
  {
    match key
    case ByMessage =>
      LexLessTransitive(z.message, y.message, x.message);
    case ByPodAndContainer =>
      if LexLess(z.podName, y.podName) && LexLess(y.podName, x.podName) {
        LexLessTransitive(z.podName, y.podName, x.podName);
      }
      if LexLess(z.containerName, y.containerName) && LexLess(y.containerName, x.containerName) {
        LexLessTransitive(z.containerName, y.containerName, x.containerName);
      }
  }

  lemma GreaterAsymmetric(key: SortKey, x: Message, y: Message)
    requires Greater(key, x, y)
    ensures !Greater(key, y, x)
  {
    LexLessIrreflexive(x.podName);
    LexLessIrreflexive(x.containerName);
    match key
    case ByMessage =>
      LexLessAsymmetric(y.message, x.message);
    case ByPodAndContainer =>
      if LexLess(y.podName, x.podName) {
        LexLessAsymmetric(y.podName, x.podName);
      }
      if LexLess(y.containerName, x.containerName) {
        LexLessAsymmetric(y.containerName, x.containerName);
      }
  }

  /** Sorted by MESSAGE means the message texts ascend (equal texts may sit
      in any order). */
  lemma SortedByMessageAscends(s: seq<Message>)
    requires Sorted(s, ByMessage)
    ensures forall k, l :: 0 <= k < l < |s| ==> s[k].message == s[l].message || LexLess(s[k].message, s[l].message)
  {
    forall k, l | 0 <= k < l < |s|
      ensures s[k].message == s[l].message || LexLess(s[k].message, s[l].message)
    {
      LexLessTotal(s[k].message, s[l].message);
    }
  }

  /** Sorted by POD_AND_CONTAINER means ascending (pod, container, line) in
      lexicographic order. */
  lemma SortedByPodAscends(s: seq<Message>)
    requires Sorted(s, ByPodAndContainer)
    ensures forall k, l :: 0 <= k < l < |s| ==>
      LexLess(s[k].podName, s[l].podName)
      || (s[k].podName == s[l].podName
          && (LexLess(s[k].containerName, s[l].containerName)
              || (s[k].containerName == s[l].containerName && s[k].lineNumber <= s[l].lineNumber)))
  {
    forall k, l | 0 <= k < l < |s|
      ensures LexLess(s[k].podName, s[l].podName)
        || (s[k].podName == s[l].podName
            && (LexLess(s[k].containerName, s[l].containerName)
                || (s[k].containerName == s[l].containerName && s[k].lineNumber <= s[l].lineNumber)))
    {
      LexLessTotal(s[k].podName, s[l].podName);
      LexLessTotal(s[k].containerName, s[l].containerName);
    }
  }

  /** The nested exchange loops of sortMessages for one key: after pass i the
      smallest remaining message sits at position i. */
  method ExchangeSort(a: array<Message>, key: SortKey)
    modifies a
    ensures Sorted(a[..], key)
    ensures multiset(a[..]) == multiset(old(a[..]))
  {
    var n := a.Length;
    var i := 0;
    while i + 1 < n
      invariant 0 <= i <= n
      invariant Placed(a[..], key, i)
      invariant multiset(a[..]) == multiset(old(a[..]))
    {
      ExchangeRound(a, key, i);
      i := i + 1;
    }
  }

  /** Each of the first i elements is not greater than any element after it. */
  predicate Placed(s: seq<Message>, key: SortKey, i: nat) {
    forall k, l :: 0 <= k < i && k < l < |s| ==> !Greater(key, s[k], s[l])
  }

  /** s[i] is not greater than any of s[i+1..j]. */
  predicate FrontBelow(s: seq<Message>, key: SortKey, i: nat, j: nat)
    requires i < |s|
  {
    forall l :: i < l < j && l < |s| ==> !Greater(key, s[i], s[l])
  }

  /** The inner loop for position i: every later element that a[i] is
      greater than is exchanged with it, so a[i] ends up not greater than any
      later element, and the positions before i keep their property. */
  method ExchangeRound(a: array<Message>, key: SortKey, i: nat)
    modifies a
    requires i < a.Length
    requires Placed(a[..], key, i)
    ensures Placed(a[..], key, i + 1)
    ensures multiset(a[..]) == multiset(old(a[..]))
  {
    var n := a.Length;
    var j := i + 1;
    while j < n
      invariant i + 1 <= j <= n
      invariant Placed(a[..], key, i)
      invariant FrontBelow(a[..], key, i, j)
      invariant multiset(a[..]) == multiset(old(a[..]))
    {
      ExchangeIfGreater(a, key, i, j);
      j := j + 1;
    }
    PlacedNext(a[..], key, i);
  }

  /** One comparison of the inner loop: a[i] and a[j] change places when
      a[i] is the greater. */
  method ExchangeIfGreater(a: array<Message>, key: SortKey, i: nat, j: nat)
    modifies a
    requires i < j < a.Length
    requires Placed(a[..], key, i) && FrontBelow(a[..], key, i, j)
    ensures Placed(a[..], key, i) && FrontBelow(a[..], key, i, j + 1)
    ensures multiset(a[..]) == multiset(old(a[..]))
  {
    ghost var before := a[..];
    if Greater(key, a[i], a[j]) {
      ExchangeStep(before, key, i, j);
      a[i], a[j] := a[j], a[i];
      assert a[..] == before[i := before[j]][j := before[i]];
    } else {
      assert FrontBelow(before, key, i, j + 1);
    }
  }

  lemma PlacedNext(s: seq<Message>, key: SortKey, i: nat)
    requires i < |s| && Placed(s, key, i) && FrontBelow(s, key, i, |s|)
    ensures Placed(s, key, i + 1)
  {
  }

  /** Exchanging s[i] with a later s[j] that it is greater than keeps the
      positions before i in order, makes the new s[i] not greater than any of
      s[i+1..j], and permutes the contents. */
  lemma ExchangeStep(s: seq<Message>, key: SortKey, i: nat, j: nat)
    requires i < j < |s|
    requires Placed(s, key, i) && FrontBelow(s, key, i, j)
    requires Greater(key, s[i], s[j])
    ensures var t := s[i := s[j]][j := s[i]];
      Placed(t, key, i) && FrontBelow(t, key, i, j + 1) && multiset(t) == multiset(s)
  {
    var t := s[i := s[j]][j := s[i]];
    forall l | i < l < j
      ensures !Greater(key, t[i], t[l])
    {
      if Greater(key, s[j], s[l]) {
        GreaterTransitive(key, s[i], s[j], s[l]);
      }
    }
    GreaterAsymmetric(key, s[i], s[j]);
    forall k, l | 0 <= k < i && k < l < |t|
      ensures !Greater(key, t[k], t[l])
    {
      assert t[k] == s[k];
      if l == i {
        assert t[l] == s[j];
      } else if l == j {
        assert t[l] == s[i];
      } else {
        assert t[l] == s[l];
      }
    }
  }

  /** sortMessages: sorts in place by the selected key, or leaves the array
      alone when sortBy names neither key. */
  method SortMessages(a: array<Message>, sortBy: string)
    modifies a
    ensures multiset(a[..]) == multiset(old(a[..]))
    ensures KeyOf(sortBy).Some? ==> Sorted(a[..], KeyOf(sortBy).value)
    ensures KeyOf(sortBy).None? ==> a[..] == old(a[..])
  {
    var upper := Upper(sortBy);
    if upper == "MESSAGE" {
      ExchangeSort(a, ByMessage);
    } else if upper == "POD_AND_CONTAINER" {
      ExchangeSort(a, ByPodAndContainer);
    }
  }

  /** `out` is what sortMessages may return for `messages`: a permutation,
      sorted by the selected key, or `messages` itself when no key applies. */
  predicate SortingOf(out: seq<Message>, messages: seq<Message>, sortBy: string) {
    multiset(out) == multiset(messages)
    && match KeyOf(sortBy)
       case None => out == messages
       case Some(key) => Sorted(out, key)
  }

  // ---------------------------------------------------------------------
  // Grep and its entry points
  // ---------------------------------------------------------------------

  /** The answers Grep may give: the two errors, or a sorting of every pod's
      messages in pod order. */
  predicate GrepAnswer(g: Grepper, namespace: string, resource: string, pattern: string, sortBy: string, r: Result<seq<Message>>) {
    if g.clientset.None? then r == Err(Plain("Kubernetes clientset not available"))
    else
      match PodsFor(g.clientset.value, namespace, resource)
      case Err(e) => r == Err(Errorf("error getting pods: ", e))
      case Ok(pods) => r.Ok? && SortingOf(r.value, AllMessages(g.logReader, pods, pattern), sortBy)
  }

  method Grep(g: Grepper, namespace: string, resource: string, pattern: string, sortBy: string) returns (r: Result<seq<Message>>)
    ensures GrepAnswer(g, namespace, resource, pattern, sortBy, r)
  {
    if g.clientset.None? {
      return Err(Plain("Kubernetes clientset not available"));
    }
    var pods := GetPods(g, namespace, resource);
    if pods.Err? {
      return Err(Errorf("error getting pods: ", pods.error));
    }
    var messages := CollectMessages(g, pods.value, pattern);
    var sorted := Sorting(messages, sortBy);
    return Ok(sorted);
  }

  /** The pod loop of Grep: every pod's messages, in pod order. */
  method CollectMessages(g: Grepper, pods: seq<Pod>, pattern: string) returns (messages: seq<Message>)
    ensures messages == AllMessages(g.logReader, pods, pattern)
  {
    messages := [];
    var i := 0;
    while i < |pods|
      invariant 0 <= i <= |pods|
      invariant messages == AllMessages(g.logReader, pods[..i], pattern)
    {
      var podMessages := SearchPodLogs(g, pods[i], pattern);
      assert pods[..i + 1][..i] == pods[..i];
      messages := messages + podMessages;
      i := i + 1;
    }
    assert pods[..|pods|] == pods;
  }

  /** sortMessages on a slice: the messages copied into an array and sorted
      there. */
  method Sorting(messages: seq<Message>, sortBy: string) returns (sorted: seq<Message>)
    ensures SortingOf(sorted, messages, sortBy)
  {
    var a := new Message[|messages|](k requires 0 <= k < |messages| => messages[k]);
    assert a[..] == messages;
    SortMessages(a, sortBy);
    sorted := a[..];
  }

  /** GrepNamespace: every pod of the namespace. */
  method GrepNamespace(g: Grepper, namespace: string, pattern: string, sortBy: string) returns (r: Result<seq<Message>>)
    ensures GrepAnswer(g, namespace, "", pattern, sortBy, r)
  {
    r := Grep(g, namespace, "", pattern, sortBy);
  }

  /** GrepWithoutNamespace: every pod of the default namespace. */
  method GrepWithoutNamespace(g: Grepper, pattern: string, sortBy: string) returns (r: Result<seq<Message>>)
    ensures GrepAnswer(g, ResourceSearcher.DefaultNamespace(g.config), "", pattern, sortBy, r)
  {
    var namespace := ResourceSearcher.DefaultNamespace(g.config);
    r := Grep(g, namespace, "", pattern, sortBy);
  }

  /** GrepResourceWithoutNamespace: the matching pods of the default namespace. */
  method GrepResourceWithoutNamespace(g: Grepper, resource: string, pattern: string, sortBy: string) returns (r: Result<seq<Message>>)
    ensures GrepAnswer(g, ResourceSearcher.DefaultNamespace(g.config), resource, pattern, sortBy, r)
  {
    var namespace := ResourceSearcher.DefaultNamespace(g.config);
    r := Grep(g, namespace, resource, pattern, sortBy);
  }

  /** Listing every pod and filtering with "" agree: GrepNamespace answers
      like Grep with an empty resource filter, and that filter keeps every pod. */
  lemma EmptyResourceListsAll(api: PodApi, namespace: string)
    ensures PodsFor(api, namespace, "") == (match api.list(namespace) case Err(e) => Err(e) case Ok(pods) => Ok(FilterPods(pods, "")))
  {
    if api.list(namespace).Ok? {
      EmptyFilterKeepsAll(api.list(namespace).value);
    }
  }
}

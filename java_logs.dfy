/** The Java log greppers: log/LogGrepper.java (grep with a sort key, over the
    pods of one namespace) and Kgrep.java (the older run, over the client's
    own pod listing, without line numbers). Both read one log per running
    container of every pod whose name contains the resource string.

    The cluster is an oracle: the pods a namespace lists, the pods the client
    lists without a namespace, and the text of each container's log. */
module JavaLogs {
  import opened Text
  import opened LineMatch
  import JavaGrep
  import opened JavaLang

  datatype ContainerStatus = ContainerStatus(name: string, terminated: bool)
  datatype Pod = Pod(name: string, containerStatuses: seq<ContainerStatus>)

  /** The cluster as both greppers see it: pods().inNamespace(ns).list(),
      pods().list(), and LogReader.read(namespace, pod, container). */
  datatype Cluster = Cluster(podsIn: string -> seq<Pod>, pods: seq<Pod>, read: (string, string, string) -> string)

  datatype LogMessage = LogMessage(pod: string, container: string, message: string, lineNumber: int)

  /** The sort keys grep tells apart; any other key is named by OtherSortBy. */
  datatype SortBy = PodAndContainer | ByMessage | OtherSortBy(name: string)

  /** log.split(System.lineSeparator()) with "\n" as the separator. */
  function LogLines(log: string): seq<string> {
    JavaSplit(log, '\n')
  }

  /** A container can be read when its state is not terminated. */
  predicate Running(status: ContainerStatus) {
    !status.terminated
  }

  // ---------------------------------------------------------------------
  // LogGrepper.readLog
  // ---------------------------------------------------------------------

  /** The stream map of readLog: one message per occurrence, in order. */
  function ToMessages(pod: string, container: string, hits: seq<Hit>): (r: seq<LogMessage>)
    ensures |r| == |hits|
    ensures forall k :: 0 <= k < |hits| ==> r[k] == LogMessage(pod, container, hits[k].text, hits[k].lineNumber)
  {
    seq(|hits|, k requires 0 <= k < |hits| => LogMessage(pod, container, hits[k].text, hits[k].lineNumber))
  }

  /** What readLog returns for one container. The log is read in the
      namespace grep was given. */
  function ReadLog(c: Cluster, ns: string, pod: Pod, status: ContainerStatus, pattern: string): seq<LogMessage> {
    ToMessages(pod.name, status.name, Hits(LogLines(c.read(ns, pod.name, status.name)), pattern, false))
  }

  method ReadLogOf(c: Cluster, ns: string, pod: Pod, status: ContainerStatus, pattern: string) returns (r: seq<LogMessage>)
    ensures r == ReadLog(c, ns, pod, status, pattern)
  {
    var occurrences := JavaGrep.Run(LogLines(c.read(ns, pod.name, status.name)), pattern);
    r := ToMessages(pod.name, status.name, occurrences);
  }

  /** A message of readLog is a numbered line of that container's log that
      contains the pattern (matching case), tagged with the pod and container. */
  lemma ReadLogExactly(c: Cluster, ns: string, pod: Pod, status: ContainerStatus, pattern: string)
    ensures var lines := LogLines(c.read(ns, pod.name, status.name));
      forall m :: m in ReadLog(c, ns, pod, status, pattern) <==>
        m.pod == pod.name && m.container == status.name
        && 1 <= m.lineNumber <= |lines| && m.message == lines[m.lineNumber - 1] && Contains(m.message, pattern)
  {
    var lines := LogLines(c.read(ns, pod.name, status.name));
    var hits := Hits(lines, pattern, false);
    HitsExactly(lines, pattern, false);
    var r := ReadLog(c, ns, pod, status, pattern);
    forall m ensures m in r <==>
      m.pod == pod.name && m.container == status.name
      && 1 <= m.lineNumber <= |lines| && m.message == lines[m.lineNumber - 1] && Contains(m.message, pattern)
    {
      if m in r {
        var k :| 0 <= k < |r| && r[k] == m;
        assert hits[k] in hits;
      }
      if m.pod == pod.name && m.container == status.name
         && 1 <= m.lineNumber <= |lines| && m.message == lines[m.lineNumber - 1] && Contains(m.message, pattern)
      {
        var h := Hit(m.lineNumber, m.message);
        assert h in hits;
        var k :| 0 <= k < |hits| && hits[k] == h;
        assert r[k] == m;
      }
    }
  }

  // ---------------------------------------------------------------------
  // LogGrepper.grep
  // ---------------------------------------------------------------------

  /** The messages of the running containers among `statuses`, in status order. */
  function ContainerLogs(c: Cluster, ns: string, pod: Pod, statuses: seq<ContainerStatus>, pattern: string): seq<LogMessage>
    decreases |statuses|
  {
    if |statuses| == 0 then []
    else
      var last := statuses[|statuses| - 1];
      ContainerLogs(c, ns, pod, statuses[..|statuses| - 1], pattern)
      + (if Running(last) then ReadLog(c, ns, pod, last, pattern) else [])
  }

  /** The messages grep collects before sorting: pod by pod, for the pods whose
      name contains `resource` (matching case). */
  function Fetched(c: Cluster, ns: string, pods: seq<Pod>, resource: string, pattern: string): seq<LogMessage>
    decreases |pods|
  {
    if |pods| == 0 then []
    else
      var last := pods[|pods| - 1];
      Fetched(c, ns, pods[..|pods| - 1], resource, pattern)
      + (if Contains(last.name, resource) then ContainerLogs(c, ns, last, last.containerStatuses, pattern) else [])
  }

  /** A message of a running container: the container belongs to the pod and
      the message is one readLog gives for it. */
  predicate FromRunningContainer(c: Cluster, ns: string, pod: Pod, statuses: seq<ContainerStatus>, pattern: string, m: LogMessage) {
    exists st :: st in statuses && Running(st) && m in ReadLog(c, ns, pod, st, pattern)
  }

  lemma {:induction false} ContainerLogsExactly(c: Cluster, ns: string, pod: Pod, statuses: seq<ContainerStatus>, pattern: string)
    ensures forall m :: m in ContainerLogs(c, ns, pod, statuses, pattern) <==> FromRunningContainer(c, ns, pod, statuses, pattern, m)
    decreases |statuses|
  {
    if |statuses| > 0 {
      var init := statuses[..|statuses| - 1];
      var last := statuses[|statuses| - 1];
      ContainerLogsExactly(c, ns, pod, init, pattern);
      forall m ensures m in ContainerLogs(c, ns, pod, statuses, pattern) <==> FromRunningContainer(c, ns, pod, statuses, pattern, m) {
        if FromRunningContainer(c, ns, pod, statuses, pattern, m) {
          var st :| st in statuses && Running(st) && m in ReadLog(c, ns, pod, st, pattern);
          if st != last {
            assert st in init;
          }
        }
        if FromRunningContainer(c, ns, pod, init, pattern, m) {
          var st :| st in init && Running(st) && m in ReadLog(c, ns, pod, st, pattern);
          assert st in statuses;
        }
      }
    }
  }

  /** The pod-level reading of grep's loop: a message is collected exactly
      when it comes from a running container of a listed pod whose name
      contains the resource string. */
  predicate FromMatchingPod(c: Cluster, ns: string, pods: seq<Pod>, resource: string, pattern: string, m: LogMessage) {
    exists p :: p in pods && Contains(p.name, resource) && FromRunningContainer(c, ns, p, p.containerStatuses, pattern, m)
  }

  lemma {:induction false} FetchedExactly(c: Cluster, ns: string, pods: seq<Pod>, resource: string, pattern: string)
    ensures forall m :: m in Fetched(c, ns, pods, resource, pattern) <==> FromMatchingPod(c, ns, pods, resource, pattern, m)
    decreases |pods|
  {
    if |pods| > 0 {
      var init := pods[..|pods| - 1];
      var last := pods[|pods| - 1];
      FetchedExactly(c, ns, init, resource, pattern);
      ContainerLogsExactly(c, ns, last, last.containerStatuses, pattern);
      forall m ensures m in Fetched(c, ns, pods, resource, pattern) <==> FromMatchingPod(c, ns, pods, resource, pattern, m) {
        if FromMatchingPod(c, ns, pods, resource, pattern, m) {
          var p :| p in pods && Contains(p.name, resource) && FromRunningContainer(c, ns, p, p.containerStatuses, pattern, m);
          if p != last {
            assert p in init;
          }
        }
        if FromMatchingPod(c, ns, init, resource, pattern, m) {
          var p :| p in init && Contains(p.name, resource) && FromRunningContainer(c, ns, p, p.containerStatuses, pattern, m);
          assert p in pods;
        }
      }
    }
  }

  /** Messages sorted ascending by their text (String.compareTo). */
  predicate SortedByMessage(s: seq<LogMessage>) {
    forall i, j :: 0 <= i < j < |s| ==> !LexLess(s[j].message, s[i].message)
  }

  /** One step of a stable insertion sort: `x` goes after every element whose
      text is not greater than its own. */
  function InsertByMessage(sorted: seq<LogMessage>, x: LogMessage): (r: seq<LogMessage>)
    decreases |sorted|
  {
    if |sorted| == 0 then [x]
    else
      var last := sorted[|sorted| - 1];
      if LexLess(x.message, last.message) then InsertByMessage(sorted[..|sorted| - 1], x) + [last]
      else sorted + [x]
  }

  /** lines.sort(comparing(LogMessage::message)): List.sort is stable. */
  function SortByMessage(s: seq<LogMessage>): seq<LogMessage>
    decreases |s|
  {
    if |s| == 0 then [] else InsertByMessage(SortByMessage(s[..|s| - 1]), s[|s| - 1])
  }

  /** The messages of `s` with text `t`, in order. */
  function WithMessage(s: seq<LogMessage>, t: string): seq<LogMessage>
    decreases |s|
  {
    if |s| == 0 then []
    else WithMessage(s[..|s| - 1], t) + (if s[|s| - 1].message == t then [s[|s| - 1]] else [])
  }

  lemma WithMessageAppend(s: seq<LogMessage>, x: LogMessage, t: string)
    ensures WithMessage(s + [x], t) == WithMessage(s, t) + (if x.message == t then [x] else [])
  {
    assert (s + [x])[..|s|] == s;
  }

  /** Insertion keeps every element and adds `x`. */
  lemma {:induction false} InsertByMessagePermutes(sorted: seq<LogMessage>, x: LogMessage)
    ensures multiset(InsertByMessage(sorted, x)) == multiset(sorted) + multiset{x}
    decreases |sorted|
  {
    if |sorted| > 0 {
      var init := sorted[..|sorted| - 1];
      InsertByMessagePermutes(init, x);
      assert sorted == init + [sorted[|sorted| - 1]];
    }
  }

  /** Insertion into a sorted sequence keeps it sorted. */
  lemma {:induction false} InsertByMessageSorted(sorted: seq<LogMessage>, x: LogMessage)
    requires SortedByMessage(sorted)
    ensures SortedByMessage(InsertByMessage(sorted, x))
    decreases |sorted|
  {
    var n := |sorted|;
    if n > 0 {
      var init := sorted[..n - 1];
      var last := sorted[n - 1];
      if LexLess(x.message, last.message) {
        InsertByMessageSorted(init, x);
        InsertBeforeLast(sorted, x);
      } else {
        AppendNotLess(sorted, x);
      }
    }
  }

  /** When `x` is less than the last element, the last element stays last and
      is not less than anything inserted before it. */
  lemma InsertBeforeLast(sorted: seq<LogMessage>, x: LogMessage)
    requires |sorted| > 0 && SortedByMessage(sorted)
    requires LexLess(x.message, sorted[|sorted| - 1].message)
    requires SortedByMessage(InsertByMessage(sorted[..|sorted| - 1], x))
    ensures SortedByMessage(InsertByMessage(sorted, x))
  {
    var init := sorted[..|sorted| - 1];
    var last := sorted[|sorted| - 1];
    var r := InsertByMessage(sorted, x);
    InsertByMessagePermutes(init, x);
    var mid := InsertByMessage(init, x);
    assert r == mid + [last];
    forall i | 0 <= i < |mid| ensures !LexLess(last.message, mid[i].message) {
      assert mid[i] in multiset(mid);
      if mid[i] == x {
        LexLessAsymmetric(x.message, last.message);
      } else {
        assert mid[i] in multiset(init);
        var k :| 0 <= k < |init| && init[k] == mid[i];
        assert sorted[k] == mid[i];
      }
    }
    forall i, j | 0 <= i < j < |r| ensures !LexLess(r[j].message, r[i].message) {
      if j < |mid| {
        assert r[i] == mid[i] && r[j] == mid[j];
      }
    }
  }

  /** When `x` is not less than the last element, appending it keeps the
      sequence sorted. */
  lemma AppendNotLess(sorted: seq<LogMessage>, x: LogMessage)
    requires |sorted| > 0 && SortedByMessage(sorted)
    requires !LexLess(x.message, sorted[|sorted| - 1].message)
    ensures SortedByMessage(InsertByMessage(sorted, x))
  {
    var n := |sorted|;
    var last := sorted[n - 1];
    assert InsertByMessage(sorted, x) == sorted + [x];
    forall i | 0 <= i < n ensures !LexLess(x.message, sorted[i].message) {
      if i < n - 1 && LexLess(x.message, sorted[i].message) {
        LexLessTotal(last.message, sorted[i].message);
        if LexLess(sorted[i].message, last.message) {
          LexLessTransitive(x.message, sorted[i].message, last.message);
        }
      }
    }
  }

  /** Insertion is stable: among the messages with one text, `x` comes last. */
  lemma {:induction false} InsertByMessageStable(sorted: seq<LogMessage>, x: LogMessage, t: string)
    ensures WithMessage(InsertByMessage(sorted, x), t) == WithMessage(sorted, t) + (if x.message == t then [x] else [])
    decreases |sorted|
  {
    var n := |sorted|;
    if n == 0 {
      WithMessageAppend([], x, t);
    } else {
      var init := sorted[..n - 1];
      var last := sorted[n - 1];
      if LexLess(x.message, last.message) {
        var mid := InsertByMessage(init, x);
        InsertByMessageStable(init, x, t);
        assert InsertByMessage(sorted, x) == mid + [last];
        WithMessageAppend(mid, last, t);
        assert sorted == init + [last];
        WithMessageAppend(init, last, t);
        LexLessIrreflexive(x.message);
        assert x.message == t ==> last.message != t;
      } else {
        WithMessageAppend(sorted, x, t);
      }
    }
  }

  /** The MESSAGE ordering is sorted by text, a permutation of what was
      fetched, and stable: messages with equal text keep their fetch order. */
  lemma {:induction false} SortByMessageFacts(s: seq<LogMessage>)
    ensures SortedByMessage(SortByMessage(s))
    ensures multiset(SortByMessage(s)) == multiset(s)
    ensures forall t :: WithMessage(SortByMessage(s), t) == WithMessage(s, t)
    decreases |s|
  {
    if |s| > 0 {
      var init := s[..|s| - 1];
      SortByMessageFacts(init);
      InsertByMessageSorted(SortByMessage(init), s[|s| - 1]);
      InsertByMessagePermutes(SortByMessage(init), s[|s| - 1]);
      assert s == init + [s[|s| - 1]];
      forall t ensures WithMessage(SortByMessage(s), t) == WithMessage(s, t) {
        InsertByMessageStable(SortByMessage(init), s[|s| - 1], t);
        WithMessageAppend(init, s[|s| - 1], t);
      }
    }
  }

  /** grep's pod loop. */
  method FetchLogs(c: Cluster, namespace: string, resource: string, pattern: string) returns (lines: seq<LogMessage>)
    ensures lines == Fetched(c, namespace, c.podsIn(namespace), resource, pattern)
  {
    var pods := c.podsIn(namespace);
    lines := [];
    var i := 0;
    while i < |pods|
      invariant 0 <= i <= |pods|
      invariant lines == Fetched(c, namespace, pods[..i], resource, pattern)
    {
      var pod := pods[i];
      assert pods[..i + 1][..i] == pods[..i];
      if Contains(pod.name, resource) {
        var read := ReadRunningContainers(c, namespace, pod, pattern);
        lines := lines + read;
      }
      i := i + 1;
    }
    assert pods[..|pods|] == pods;
  }

  /** grep's container loop for one pod. */
  method ReadRunningContainers(c: Cluster, namespace: string, pod: Pod, pattern: string) returns (lines: seq<LogMessage>)
    ensures lines == ContainerLogs(c, namespace, pod, pod.containerStatuses, pattern)
  {
    var statuses := pod.containerStatuses;
    lines := [];
    var j := 0;
    while j < |statuses|
      invariant 0 <= j <= |statuses|
      invariant lines == ContainerLogs(c, namespace, pod, statuses[..j], pattern)
    {
      var status := statuses[j];
      assert statuses[..j + 1][..j] == statuses[..j];
      if Running(status) {
        var read := ReadLogOf(c, namespace, pod, status, pattern);
        lines := lines + read;
      }
      j := j + 1;
    }
    assert statuses[..|statuses|] == statuses;
  }

  /** LogGrepper.grep(namespace, resource, pattern, sortBy). */
  method Grep(c: Cluster, namespace: string, resource: string, pattern: string, sortBy: SortBy)
    returns (r: Outcome<seq<LogMessage>>)
    ensures sortBy == PodAndContainer ==> r == Returned(Fetched(c, namespace, c.podsIn(namespace), resource, pattern))
    ensures sortBy == ByMessage ==> r == Returned(SortByMessage(Fetched(c, namespace, c.podsIn(namespace), resource, pattern)))
    ensures sortBy.OtherSortBy? ==> r == Thrown(UnsupportedOperation("Sorting by " + sortBy.name + " is not supported"))
  {
    var lines := FetchLogs(c, namespace, resource, pattern);
    if sortBy == PodAndContainer {
      r := Returned(lines);
    } else if sortBy == ByMessage {
      lines := SortByMessage(lines);
      r := Returned(lines);
    } else {
      r := Thrown(UnsupportedOperation("Sorting by " + sortBy.name + " is not supported"));
    }
  }

  /** LogGrepper.grep(namespace, resource, pattern): the POD_AND_CONTAINER order. */
  method GrepInFetchOrder(c: Cluster, namespace: string, resource: string, pattern: string)
    returns (r: Outcome<seq<LogMessage>>)
    ensures r == Returned(Fetched(c, namespace, c.podsIn(namespace), resource, pattern))
  {
    r := Grep(c, namespace, resource, pattern, PodAndContainer);
  }

  // ---------------------------------------------------------------------
  // Kgrep.run
  // ---------------------------------------------------------------------

  /** Kgrep's LogMessage: pod, container and the line, with no line number. */
  datatype Line = Line(pod: string, container: string, line: string)

  /** The lines containing `grep` (matching case), in order. */
  function Kept(lines: seq<string>, grep: string): seq<string>
    decreases |lines|
  {
    if |lines| == 0 then []
    else Kept(lines[..|lines| - 1], grep) + (if Contains(lines[|lines| - 1], grep) then [lines[|lines| - 1]] else [])
  }

  /** The texts of Hits (the Grep.run occurrences). */
  function HitTexts(hits: seq<Hit>): (r: seq<string>)
    ensures |r| == |hits| && forall k :: 0 <= k < |hits| ==> r[k] == hits[k].text
  {
    seq(|hits|, k requires 0 <= k < |hits| => hits[k].text)
  }

  /** Kgrep's filter keeps the same lines, in the same order, as the numbered
      matcher of Grep.run: only the line numbers are missing. */
  lemma {:induction false} KeptAreHitTexts(lines: seq<string>, grep: string)
    ensures Kept(lines, grep) == HitTexts(Hits(lines, grep, false))
    decreases |lines|
  {
    if |lines| > 0 {
      var n := |lines|;
      KeptAreHitTexts(lines[..n - 1], grep);
      var init := Hits(lines[..n - 1], grep, false);
      if Contains(lines[n - 1], grep) {
        assert Hits(lines, grep, false) == init + [Hit(n, lines[n - 1])];
        assert HitTexts(init + [Hit(n, lines[n - 1])]) == HitTexts(init) + [lines[n - 1]];
      }
    }
  }

  function ToLines(pod: string, container: string, texts: seq<string>): (r: seq<Line>)
    ensures |r| == |texts| && forall k :: 0 <= k < |texts| ==> r[k] == Line(pod, container, texts[k])
  {
    seq(|texts|, k requires 0 <= k < |texts| => Line(pod, container, texts[k]))
  }

  /** Kgrep.readLog for one container. */
  function KgrepReadLog(c: Cluster, ns: string, pod: Pod, status: ContainerStatus, grep: string): seq<Line> {
    ToLines(pod.name, status.name, Kept(LogLines(c.read(ns, pod.name, status.name)), grep))
  }

  /** Kgrep.readLog reports the same lines as LogGrepper.readLog for the same
      container, without their numbers. */
  lemma KgrepReadsLikeLogGrepper(c: Cluster, ns: string, pod: Pod, status: ContainerStatus, grep: string)
    ensures var a := KgrepReadLog(c, ns, pod, status, grep);
      var b := ReadLog(c, ns, pod, status, grep);
      |a| == |b| && forall k :: 0 <= k < |a| ==> a[k] == Line(b[k].pod, b[k].container, b[k].message)
  {
    KeptAreHitTexts(LogLines(c.read(ns, pod.name, status.name)), grep);
  }

  function KgrepContainers(c: Cluster, ns: string, pod: Pod, statuses: seq<ContainerStatus>, grep: string): seq<Line>
    decreases |statuses|
  {
    if |statuses| == 0 then []
    else
      var last := statuses[|statuses| - 1];
      KgrepContainers(c, ns, pod, statuses[..|statuses| - 1], grep)
      + (if Running(last) then KgrepReadLog(c, ns, pod, last, grep) else [])
  }

  /** What run collects over the pods the client lists. */
  function KgrepFetched(c: Cluster, ns: string, pods: seq<Pod>, resource: string, grep: string): seq<Line>
    decreases |pods|
  {
    if |pods| == 0 then []
    else
      var last := pods[|pods| - 1];
      KgrepFetched(c, ns, pods[..|pods| - 1], resource, grep)
      + (if Contains(last.name, resource) then KgrepContainers(c, ns, last, last.containerStatuses, grep) else [])
  }

  /** Every reported line contains the grep text and belongs to a running
      container of a pod whose name contains the resource string. */
  lemma {:induction false} KgrepFetchedSound(c: Cluster, ns: string, pods: seq<Pod>, resource: string, grep: string)
    ensures forall l :: l in KgrepFetched(c, ns, pods, resource, grep) ==>
      Contains(l.line, grep)
      && exists p, st :: p in pods && st in p.containerStatuses && Contains(p.name, resource) && Running(st)
           && l.pod == p.name && l.container == st.name
    decreases |pods|
  {
    if |pods| > 0 {
      var init := pods[..|pods| - 1];
      var last := pods[|pods| - 1];
      KgrepFetchedSound(c, ns, init, resource, grep);
      forall l | l in KgrepFetched(c, ns, pods, resource, grep)
        ensures Contains(l.line, grep)
          && exists p, st :: p in pods && st in p.containerStatuses && Contains(p.name, resource) && Running(st)
               && l.pod == p.name && l.container == st.name
      {
        if l in KgrepFetched(c, ns, init, resource, grep) {
          var p, st :| p in init && st in p.containerStatuses && Contains(p.name, resource) && Running(st)
            && l.pod == p.name && l.container == st.name;
          assert p in pods;
        } else {
          KgrepContainersSound(c, ns, last, last.containerStatuses, grep);
        }
      }
    }
  }

  lemma {:induction false} KgrepContainersSound(c: Cluster, ns: string, pod: Pod, statuses: seq<ContainerStatus>, grep: string)
    ensures forall l :: l in KgrepContainers(c, ns, pod, statuses, grep) ==>
      Contains(l.line, grep) && l.pod == pod.name && exists st :: st in statuses && Running(st) && l.container == st.name
    decreases |statuses|
  {
    if |statuses| > 0 {
      var init := statuses[..|statuses| - 1];
      var last := statuses[|statuses| - 1];
      KgrepContainersSound(c, ns, pod, init, grep);
      forall l | l in KgrepContainers(c, ns, pod, statuses, grep)
        ensures Contains(l.line, grep) && l.pod == pod.name && exists st :: st in statuses && Running(st) && l.container == st.name
      {
        if l in KgrepContainers(c, ns, pod, init, grep) {
          var st :| st in init && Running(st) && l.container == st.name;
          assert st in statuses;
        } else {
          var texts := Kept(LogLines(c.read(ns, pod.name, last.name)), grep);
          var k :| 0 <= k < |texts| && KgrepReadLog(c, ns, pod, last, grep)[k] == l;
          KeptContains(LogLines(c.read(ns, pod.name, last.name)), grep);
          assert texts[k] in texts;
        }
      }
    }
  }

  lemma {:induction false} KeptContains(lines: seq<string>, grep: string)
    ensures forall t :: t in Kept(lines, grep) ==> Contains(t, grep) && t in lines
    decreases |lines|
  {
    if |lines| > 0 {
      KeptContains(lines[..|lines| - 1], grep);
      assert forall t :: t in lines[..|lines| - 1] ==> t in lines;
    }
  }

  /** Kgrep.run: the pods come from the client's own listing, not from
      `namespace`, which only selects where the logs are read. */
  method Run(c: Cluster, namespace: string, resource: string, grep: string) returns (lines: seq<Line>)
    ensures lines == KgrepFetched(c, namespace, c.pods, resource, grep)
  {
    var pods := c.pods;
    lines := [];
    var i := 0;
    while i < |pods|
      invariant 0 <= i <= |pods|
      invariant lines == KgrepFetched(c, namespace, pods[..i], resource, grep)
    {
      var pod := pods[i];
      assert pods[..i + 1][..i] == pods[..i];
      if Contains(pod.name, resource) {
        var statuses := pod.containerStatuses;
        var read := [];
        var j := 0;
        while j < |statuses|
          invariant 0 <= j <= |statuses|
          invariant read == KgrepContainers(c, namespace, pod, statuses[..j], grep)
        {
          assert statuses[..j + 1][..j] == statuses[..j];
          if Running(statuses[j]) {
            read := read + KgrepReadLog(c, namespace, pod, statuses[j], grep);
          }
          j := j + 1;
        }
        assert statuses[..|statuses|] == statuses;
        lines := lines + read;
      }
      i := i + 1;
    }
    assert pods[..|pods|] == pods;
  }
}

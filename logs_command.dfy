/** cmd/logs.go: the `logs` command. It checks the pattern, builds a log
    grepper, turns the comma-separated --namespace flag into a list of distinct
    trimmed namespaces (or the single default entry ""), greps each, stops at
    the first error of an explicit namespace, and re-sorts the combined
    messages when more than one namespace was searched. Printing is not part
    of this model; the command's result is the list it would print. */
module LogsCommand {
  import opened Text
  import opened GoErrors
  import opened LogGrepper
  import ResourceSearcher

  // ---------------------------------------------------------------------
  // The namespace list
  // ---------------------------------------------------------------------

  /** The trimmed, non-empty tokens in order, each kept only the first time it
      appears. */
  function NamespaceList(tokens: seq<string>): seq<string>
    decreases |tokens|
  {
    if |tokens| == 0 then []
    else
      var init := NamespaceList(tokens[..|tokens| - 1]);
      var t := TrimSpace(tokens[|tokens| - 1]);
      if t == "" || t in init then init else init + [t]
  }

  /** The split-trim-deduplicate loop, with its `seen` set. */
  method ParseNamespaceList(flag: string) returns (namespaces: seq<string>)
    ensures namespaces == NamespaceList(Split(flag, ','))
  {
    var tokens := Split(flag, ',');
    var seen: set<string> := {};
    namespaces := [];
    var i := 0;
    while i < |tokens|
      invariant 0 <= i <= |tokens|
      invariant namespaces == NamespaceList(tokens[..i])
      invariant seen == set n | n in namespaces
    {
      assert tokens[..i + 1][..i] == tokens[..i];
      var t := TrimSpace(tokens[i]);
      if t == "" {
        i := i + 1;
        continue;
      }
      if t in seen {
        i := i + 1;
        continue;
      }
      seen := seen + {t};
      namespaces := namespaces + [t];
      i := i + 1;
    }
    assert tokens[..|tokens|] == tokens;
  }

  predicate Distinct(l: seq<string>) {
    forall i, j :: 0 <= i < j < |l| ==> l[i] != l[j]
  }

  /** No namespace is listed twice. */
  lemma {:induction false} NamespaceListDistinct(tokens: seq<string>)
    ensures Distinct(NamespaceList(tokens))
    decreases |tokens|
  {
    if |tokens| > 0 {
      var init := NamespaceList(tokens[..|tokens| - 1]);
      var t := TrimSpace(tokens[|tokens| - 1]);
      NamespaceListDistinct(tokens[..|tokens| - 1]);
      if t == "" || t in init {
        assert NamespaceList(tokens) == init;
      } else {
        assert NamespaceList(tokens) == init + [t];
        forall i | 0 <= i < |init| ensures init[i] != t {
          assert init[i] in init;
        }
      }
    }
  }

  /** `n` is the trimmed form of one of the tokens. */
  predicate IsToken(tokens: seq<string>, n: string) {
    exists k :: 0 <= k < |tokens| && TrimSpace(tokens[k]) == n
  }

  lemma IsTokenStep(tokens: seq<string>, n: string)
    requires |tokens| > 0
    ensures IsToken(tokens, n) <==>
      IsToken(tokens[..|tokens| - 1], n) || TrimSpace(tokens[|tokens| - 1]) == n
  {
    var init := tokens[..|tokens| - 1];
    if IsToken(tokens, n) {
      var k :| 0 <= k < |tokens| && TrimSpace(tokens[k]) == n;
      if k < |tokens| - 1 {
        assert TrimSpace(init[k]) == n;
      }
    }
    if IsToken(init, n) {
      var k :| 0 <= k < |init| && TrimSpace(init[k]) == n;
      assert TrimSpace(tokens[k]) == n;
    }
  }

  /** The listed namespaces are exactly the non-empty trimmed tokens. */
  lemma {:induction false} NamespaceListElements(tokens: seq<string>)
    ensures forall n :: n in NamespaceList(tokens) <==> n != "" && IsToken(tokens, n)
    decreases |tokens|
  {
    if |tokens| > 0 {
      NamespaceListElements(tokens[..|tokens| - 1]);
      forall n ensures n in NamespaceList(tokens) <==> n != "" && IsToken(tokens, n) {
        IsTokenStep(tokens, n);
      }
    }
  }

  /** Each listed namespace is already trimmed: trimming it again changes nothing. */
  lemma NamespaceListTrimmed(tokens: seq<string>)
    ensures forall n :: n in NamespaceList(tokens) ==> TrimSpace(n) == n
  {
    NamespaceListElements(tokens);
    forall n | n in NamespaceList(tokens) ensures TrimSpace(n) == n {
      var k :| 0 <= k < |tokens| && TrimSpace(tokens[k]) == n;
      TrimSpaceIdempotent(tokens[k]);
    }
  }

  /** First-occurrence order: the list built from any prefix of the tokens is
      a prefix of the whole list. */
  lemma {:induction false} NamespaceListPrefix(tokens: seq<string>, k: nat)
    requires k <= |tokens|
    ensures NamespaceList(tokens[..k]) <= NamespaceList(tokens)
    decreases |tokens| - k
  {
    if k < |tokens| {
      NamespaceListPrefix(tokens, k + 1);
      assert tokens[..k + 1][..k] == tokens[..k];
    } else {
      assert tokens[..k] == tokens;
    }
  }

  /** The namespaces the command visits: the parsed list for a non-empty flag,
      otherwise the single entry "" that stands for the default namespace. */
  function Namespaces(flag: string): (nss: seq<string>)
    ensures flag == "" ==> nss == [""]
  {
    if flag == "" then [""] else NamespaceList(Split(flag, ','))
  }

  /** The entries are already trimmed, so the loop's TrimSpace keeps them. */
  lemma NamespacesTrimmed(flag: string)
    ensures forall n :: n in Namespaces(flag) ==> TrimSpace(n) == n
    ensures forall n :: n in Namespaces(flag) && flag != "" ==> n != ""
  {
    if flag != "" {
      NamespaceListElements(Split(flag, ','));
      NamespaceListTrimmed(Split(flag, ','));
    } else {
      assert TrimSpace("") == "";
    }
  }

  // ---------------------------------------------------------------------
  // RunE
  // ---------------------------------------------------------------------

  /** %q of a namespace: the text in double quotes. */
  function Quote(s: string): string {
    "\"" + s + "\""
  }

  /** The answer the grep call for one entry may give: an explicit namespace is
      searched as is, the entry "" in the default namespace; with or without
      the resource filter. */
  predicate EntryAnswer(g: Grepper, ns: string, resource: string, pattern: string, sortBy: string, r: Result<seq<Message>>) {
    GrepAnswer(g, if ns != "" then ns else ResourceSearcher.DefaultNamespace(g.config), resource, pattern, sortBy, r)
  }

  /** The messages of the answers in order; a failed answer contributes none. */
  function Joined(answers: seq<Result<seq<Message>>>): seq<Message>
    decreases |answers|
  {
    if |answers| == 0 then []
    else
      var last := answers[|answers| - 1];
      Joined(answers[..|answers| - 1]) + (if last.Ok? then last.value else [])
  }

  /** How the answers for the visited entries decide the command's result: an
      error for an explicit namespace ends the command there; otherwise every
      entry was answered and the joined messages are returned, re-sorted only
      when more than one namespace was searched. */
  predicate LogsOutcome(nss: seq<string>, answers: seq<Result<seq<Message>>>, sortBy: string, r: Result<seq<Message>>) {
    0 < |answers| <= |nss|
    && (forall k :: 0 <= k < |answers| - 1 ==> answers[k].Ok? || nss[k] == "")
    && var last := |answers| - 1;
    if answers[last].Err? && nss[last] != "" then
      r == Err(Errorf("failed to search logs in namespace " + Quote(nss[last]) + ": ", answers[last].error))
    else
      |answers| == |nss| && r.Ok?
      && (if |nss| > 1 then SortingOf(r.value, Joined(answers), sortBy) else r.value == Joined(answers))
  }

  /** Each recorded answer is what grepping its entry may give. */
  predicate Answered(g: Grepper, nss: seq<string>, resource: string, pattern: string, sortBy: string, answers: seq<Result<seq<Message>>>) {
    |answers| <= |nss|
    && forall k :: 0 <= k < |answers| ==> EntryAnswer(g, nss[k], resource, pattern, sortBy, answers[k])
  }

  /** The four-way dispatch of one (trimmed) entry: with or without a
      namespace, with or without a resource filter. */
  method GrepEntry(g: Grepper, entry: string, resource: string, pattern: string, sortBy: string)
    returns (r: Result<seq<Message>>)
    requires TrimSpace(entry) == entry
    ensures EntryAnswer(g, entry, resource, pattern, sortBy, r)
  {
    var ns := TrimSpace(entry);
    if ns != "" {
      if resource != "" {
        r := Grep(g, ns, resource, pattern, sortBy);
      } else {
        r := GrepNamespace(g, ns, pattern, sortBy);
      }
    } else {
      if resource != "" {
        r := GrepResourceWithoutNamespace(g, resource, pattern, sortBy);
      } else {
        r := GrepWithoutNamespace(g, pattern, sortBy);
      }
    }
  }

  lemma AnsweredAppend(g: Grepper, nss: seq<string>, resource: string, pattern: string, sortBy: string,
                       answers: seq<Result<seq<Message>>>, next: Result<seq<Message>>)
    requires Answered(g, nss, resource, pattern, sortBy, answers) && |answers| < |nss|
    requires EntryAnswer(g, nss[|answers|], resource, pattern, sortBy, next)
    ensures Answered(g, nss, resource, pattern, sortBy, answers + [next])
  {
    assert forall k :: 0 <= k < |answers| ==> (answers + [next])[k] == answers[k];
  }

  lemma JoinedAppend(answers: seq<Result<seq<Message>>>, next: Result<seq<Message>>)
    ensures Joined(answers + [next]) == Joined(answers) + (if next.Ok? then next.value else [])
  {
    assert (answers + [next])[..|answers|] == answers;
  }

  lemma AbortOutcome(nss: seq<string>, answers: seq<Result<seq<Message>>>, sortBy: string, r: Result<seq<Message>>)
    requires 0 < |answers| <= |nss|
    requires forall k :: 0 <= k < |answers| - 1 ==> answers[k].Ok? || nss[k] == ""
    requires answers[|answers| - 1].Err? && nss[|answers| - 1] != ""
    requires r == Err(Errorf("failed to search logs in namespace " + Quote(nss[|answers| - 1]) + ": ", answers[|answers| - 1].error))
    ensures LogsOutcome(nss, answers, sortBy, r)
  {
  }

  lemma FinishOutcome(nss: seq<string>, answers: seq<Result<seq<Message>>>, sortBy: string, r: Result<seq<Message>>)
    requires 0 < |answers| == |nss|
    requires forall k :: 0 <= k < |answers| ==> answers[k].Ok? || nss[k] == ""
    requires r.Ok?
    requires if |nss| > 1 then SortingOf(r.value, Joined(answers), sortBy) else r.value == Joined(answers)
    ensures LogsOutcome(nss, answers, sortBy, r)
  {
  }

  /** The loop over the namespace entries: each entry is grepped in order
      until an explicit namespace fails; the messages of the answers so far
      are joined. */
  method AskEntries(g: Grepper, namespaces: seq<string>, resource: string, pattern: string, sortBy: string)
    returns (messages: seq<Message>, visited: nat, failure: Option<Error>, ghost answers: seq<Result<seq<Message>>>)
    requires |namespaces| > 0
    requires forall n :: n in namespaces ==> TrimSpace(n) == n
    ensures 0 < |answers| <= |namespaces| && visited == |answers|
    ensures Answered(g, namespaces, resource, pattern, sortBy, answers)
    ensures forall k :: 0 <= k < |answers| - 1 ==> answers[k].Ok? || namespaces[k] == ""
    ensures messages == Joined(answers)
    ensures failure.Some? <==> Aborted(namespaces, answers)
    ensures failure.Some? ==> failure.value == answers[|answers| - 1].error
    ensures failure.None? ==> |answers| == |namespaces|
  {
    answers := [];
    failure := None;
    messages := [];
    var i := 0;
    while i < |namespaces|
      invariant 0 <= i <= |namespaces|
      invariant |answers| == i
      invariant Answered(g, namespaces, resource, pattern, sortBy, answers)
      invariant forall k :: 0 <= k < i ==> answers[k].Ok? || namespaces[k] == ""
      invariant messages == Joined(answers)
    {
      assert namespaces[i] in namespaces;
      var ns := namespaces[i];
      var nsMessages := GrepEntry(g, ns, resource, pattern, sortBy);
      AnsweredAppend(g, namespaces, resource, pattern, sortBy, answers, nsMessages);
      JoinedAppend(answers, nsMessages);
      answers := answers + [nsMessages];
      if nsMessages.Err? && ns != "" {
        visited := i + 1;
        failure := Some(nsMessages.error);
        return;
      }
      if nsMessages.Ok? {
        messages := messages + nsMessages.value;
      }
      i := i + 1;
    }
    visited := i;
  }

  /** The last recorded answer is an error for an explicit namespace. */
  predicate Aborted(nss: seq<string>, answers: seq<Result<seq<Message>>>)
    requires 0 < |answers| <= |nss|
  {
    answers[|answers| - 1].Err? && nss[|answers| - 1] != ""
  }

  /** The loop over the namespace entries and the final re-sort. */
  method SearchNamespaces(g: Grepper, namespaces: seq<string>, resource: string, pattern: string, sortBy: string)
    returns (r: Result<seq<Message>>, ghost answers: seq<Result<seq<Message>>>)
    requires |namespaces| > 0
    requires forall n :: n in namespaces ==> TrimSpace(n) == n
    ensures Answered(g, namespaces, resource, pattern, sortBy, answers)
    ensures LogsOutcome(namespaces, answers, sortBy, r)
  {
    var messages, visited, failure;
    messages, visited, failure, answers := AskEntries(g, namespaces, resource, pattern, sortBy);
    if failure.Some? {
      r := Err(Errorf("failed to search logs in namespace " + Quote(namespaces[visited - 1]) + ": ", failure.value));
      AbortOutcome(namespaces, answers, sortBy, r);
      return;
    }
    if |namespaces| > 1 {
      messages := Sorting(messages, sortBy);
    }
    r := Ok(messages);
    FinishOutcome(namespaces, answers, sortBy, r);
  }

  /** The logs command. `answers` records what each grep call answered. */
  method RunLogs(env: LogEnvironment, namespaceFlag: string, resource: string, pattern: string, sortBy: string)
    returns (r: Result<seq<Message>>, ghost answers: seq<Result<seq<Message>>>)
    ensures pattern == "" ==> r == Err(Plain("pattern is required"))
    ensures pattern != "" && NewLogGrepper(env).Err? ==>
      r == Err(Errorf("failed to create log grepper: ", NewLogGrepper(env).error))
    ensures pattern != "" && NewLogGrepper(env).Ok? && Namespaces(namespaceFlag) == [] ==>
      r == Err(Plain("invalid namespace list: no valid namespaces provided"))
    ensures pattern != "" && NewLogGrepper(env).Ok? && Namespaces(namespaceFlag) != [] ==>
      Answered(NewLogGrepper(env).value, Namespaces(namespaceFlag), resource, pattern, sortBy, answers)
      && LogsOutcome(Namespaces(namespaceFlag), answers, sortBy, r)
  {
    answers := [];
    if pattern == "" {
      r := Err(Plain("pattern is required"));
      return;
    }
    var created := NewLogGrepper(env);
    if created.Err? {
      r := Err(Errorf("failed to create log grepper: ", created.error));
      return;
    }
    var namespaces: seq<string>;
    if namespaceFlag != "" {
      namespaces := ParseNamespaceList(namespaceFlag);
      if |namespaces| == 0 {
        r := Err(Plain("invalid namespace list: no valid namespaces provided"));
        return;
      }
    } else {
      namespaces := [""];
    }
    assert namespaces == Namespaces(namespaceFlag);
    NamespacesTrimmed(namespaceFlag);
    r, answers := SearchNamespaces(created.value, namespaces, resource, pattern, sortBy);
  }

  /** Without a --namespace flag a failing grep of the default namespace is
      swallowed: the command succeeds with no messages. */
  lemma DefaultEntryErrorIsSwallowed(answers: seq<Result<seq<Message>>>, sortBy: string, r: Result<seq<Message>>)
    requires LogsOutcome(Namespaces(""), answers, sortBy, r) && answers[0].Err?
    ensures r == Ok([])
  {
    assert |answers| == 1;
    assert Joined(answers) == Joined(answers[..0]) + [];
    assert answers[..0] == [];
  }

  /** With a single namespace the grepper's own order is kept: the result is
      that namespace's answer. */
  lemma SingleNamespaceKeepsOrder(nss: seq<string>, answers: seq<Result<seq<Message>>>, sortBy: string, r: Result<seq<Message>>)
    requires |nss| == 1 && LogsOutcome(nss, answers, sortBy, r) && answers[0].Ok?
    ensures r == Ok(answers[0].value)
  {
    assert |answers| == 1;
    assert !(answers[0].Err? && nss[0] != "");
    assert r.Ok? && r.value == Joined(answers);
    assert Joined(answers[..0]) == [];
    assert [] + answers[0].value == answers[0].value;
    assert Joined(answers) == Joined(answers[..0]) + answers[0].value;
    assert answers[..0] == [];
  }

  /** With several namespaces the result holds exactly the messages of all
      answers, sorted by the requested key when it names one. */
  lemma SeveralNamespacesResorted(nss: seq<string>, answers: seq<Result<seq<Message>>>, sortBy: string, r: Result<seq<Message>>)
    requires |nss| > 1 && LogsOutcome(nss, answers, sortBy, r) && r.Ok?
    ensures multiset(r.value) == multiset(Joined(answers))
    ensures KeyOf(sortBy).Some? ==> Sorted(r.value, KeyOf(sortBy).value)
  {
  }
}

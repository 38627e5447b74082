/**
 How the API builds the work of a request: the task graph of an ask, node by node, and the shell
 task with its approval.
 */
module Delegation {
  import opened Model
  import opened Transactions
  import opened Runtime
  import opened Outcomes

  function AgentTaskType(agent: string): (kind: string)
    ensures kind in {"coding", "research", "automation", "dialog"}
  {
    if Contains(agent, "coding") then "coding"
    else if Contains(agent, "research") then "research"
    else if Contains(agent, "automation") then "automation"
    else "dialog"
  }

  predicate OccursAt(text: string, part: string, i: nat) {
    i + |part| <= |text| && text[i..i + |part|] == part
  }

  lemma {:induction false} ContainsIff(text: string, part: string)
    ensures Contains(text, part) <==> exists i: nat :: OccursAt(text, part, i)
    decreases |text|
  {
    if part <= text {
      assert OccursAt(text, part, 0);
    } else if text != "" {
      ContainsIff(text[1..], part);
      if i: nat :| OccursAt(text[1..], part, i) {
        assert OccursAt(text, part, i + 1);
      }
      if i: nat :| OccursAt(text, part, i) {
        assert i != 0;
        assert text[1..][i - 1..i - 1 + |part|] == text[i..i + |part|];
        assert OccursAt(text[1..], part, i - 1);
      }
    }
  }

  const ASK_RETRIES := 2

  /** What every node of one request has in common. */
  datatype Request = Request(conversation: ConversationId, text: string, payload: string, event: string, correlation: string, now: int)

  function RootKey(event: string): string { "event:" + event + ":root" }

  function AgentKey(event: string, index: nat): string { "event:" + event + ":agent:" + Digits(index) }

  function AskNode(request: Request, root: TaskId, kind: Kind, agent: string, key: string, message: string): Task {
    Task(
      Fixed(root, Some(request.conversation), kind, agent, request.now, ASK_RETRIES, request.correlation,
            Some(request.event), [], key),
      Queued, 0, None, None, 0, 1, 0, false,
      Content(request.text, request.payload, message, "", None, "", []))
  }

  lemma KeysDiffer(event: string, i: nat, j: nat)
    requires i != j
    ensures AgentKey(event, i) != AgentKey(event, j)
  {
    if AgentKey(event, i) == AgentKey(event, j) {
      DropPrefix("event:" + event + ":agent:", Digits(i), Digits(j));
      DigitsInjective(i, j);
    }
  }

  lemma RootKeyDiffers(event: string, i: nat)
    ensures RootKey(event) != AgentKey(event, i)
  {
    var prefix := "event:" + event + ":";
    assert RootKey(event)[|prefix|] == 'r';
    assert AgentKey(event, i)[|prefix|] == 'a';
  }

  /** No idempotency key is used twice in one graph. */
  ghost predicate OwnKeys(graph: seq<(TaskId, Task)>) {
    forall i, j :: 0 <= i < j < |graph| ==> graph[i].1.fixed.idempotencyKey != graph[j].1.fixed.idempotencyKey
  }

  function RootNode(request: Request, root: TaskId, agents: seq<string>): Task
    requires agents != []
  {
    if |agents| == 1
    then AskNode(request, root, Delegated("dialog"), agents[0], RootKey(request.event), "Waiting for worker")
    else AskNode(request, root, Synthesis, SYNTHESIZER, RootKey(request.event), "Waiting for delegated child tasks")
  }

  function ChildNode(request: Request, root: TaskId, agents: seq<string>, i: nat): Task
    requires i < |agents|
  {
    AskNode(request, root, Delegated(AgentTaskType(agents[i])), agents[i], AgentKey(request.event, i), "Waiting for worker")
  }

  /** The root and then one node per agent, for the first so many agents. */
  ghost predicate Built(request: Request, agents: seq<string>, root: TaskId, children: seq<TaskId>,
                        graph: seq<(TaskId, Task)>, n: nat)
    requires agents != [] && |children| == |agents| && n <= |agents|
  {
    && |graph| == n + 1
    && graph[0] == (root, RootNode(request, root, agents))
    && (forall k :: 0 <= k < n ==> graph[k + 1] == (children[k], ChildNode(request, root, agents, k)))
  }

  lemma BuiltHasOwnKeys(request: Request, agents: seq<string>, root: TaskId, children: seq<TaskId>,
                        graph: seq<(TaskId, Task)>, n: nat)
    requires agents != [] && |children| == |agents| && n <= |agents| && Built(request, agents, root, children, graph, n)
    ensures OwnKeys(graph)
  {
    forall i, j | 0 <= i < j < |graph| ensures graph[i].1.fixed.idempotencyKey != graph[j].1.fixed.idempotencyKey {
      assert graph[(j - 1) + 1] == (children[j - 1], ChildNode(request, root, agents, j - 1));
      if i == 0 {
        RootKeyDiffers(request.event, j - 1);
      } else {
        assert graph[(i - 1) + 1] == (children[i - 1], ChildNode(request, root, agents, i - 1));
        KeysDiffer(request.event, i - 1, j - 1);
      }
    }
  }

  lemma BuiltHasShape(request: Request, agents: seq<string>, root: TaskId, children: seq<TaskId>,
                      graph: seq<(TaskId, Task)>, n: nat)
    requires agents != [] && |children| == |agents| && n == (if |agents| == 1 then 0 else |agents|)
    requires Built(request, agents, root, children, graph, n)
    requires IsId(root) && forall i :: 0 <= i < |children| ==> IsId(children[i])
    ensures AskShape(request.conversation, graph)
  {
    forall i | 1 <= i < |graph| ensures graph[i] == (children[i - 1], ChildNode(request, root, agents, i - 1)) {
      assert graph[(i - 1) + 1] == (children[i - 1], ChildNode(request, root, agents, i - 1));
    }
  }

  /** The columns that every node of the request starts with. */
  ghost predicate StartsFor(request: Request, root: TaskId, row: Task) {
    && row.fixed.root == root && row.fixed.conversation == Some(request.conversation)
    && row.fixed.createdAt == request.now && row.fixed.maxRetries == 2
    && row.fixed.correlation == request.correlation && row.fixed.causation == Some(request.event)
    && row.fixed.allowedTools == []
    && row.status.Queued? && row.progress == 0 && row.retryCount == 0 && row.version == 1 && !row.dismissed
    && row.startedAt.None? && row.finishedAt.None?
    && row.content.goal == request.text && row.content.input == request.payload
    && row.content.error == "" && row.content.result.None? && row.content.summary == "" && row.content.artifacts == []
  }

  /** The kind of work an agent's name stands for: the first of the three words it contains. */
  ghost predicate KindFits(agent: string, kind: Kind) {
    && (kind == Delegated("coding") <==> Contains(agent, "coding"))
    && (kind == Delegated("research") <==> !Contains(agent, "coding") && Contains(agent, "research"))
    && (kind == Delegated("automation") <==>
          !Contains(agent, "coding") && !Contains(agent, "research") && Contains(agent, "automation"))
    && (kind == Delegated("dialog") <==>
          !Contains(agent, "coding") && !Contains(agent, "research") && !Contains(agent, "automation"))
  }

  /** What is asked of each agent, in order, under the request's own keys. */
  ghost predicate AsksEach(request: Request, agents: seq<string>, root: TaskId, children: seq<TaskId>, graph: seq<(TaskId, Task)>)
    requires agents != [] && |children| == |agents|
  {
    && |graph| == (if |agents| == 1 then 1 else 1 + |agents|)
    && (forall i :: 0 <= i < |graph| ==> StartsFor(request, root, graph[i].1))
    && graph[0].0 == root && graph[0].1.fixed.idempotencyKey == "event:" + request.event + ":root"
    && (if |agents| == 1
        then && graph[0].1.fixed.agent == agents[0] && graph[0].1.fixed.kind == Delegated("dialog")
             && graph[0].1.content.progressMessage == "Waiting for worker"
        else && graph[0].1.fixed.agent == "builtin.synthesizer" && graph[0].1.fixed.kind == Synthesis
             && graph[0].1.content.progressMessage == "Waiting for delegated child tasks")
    && (forall i :: 1 <= i < |graph| ==>
          && graph[i].0 == children[i - 1] && graph[i].1.fixed.agent == agents[i - 1]
          && KindFits(agents[i - 1], graph[i].1.fixed.kind)
          && graph[i].1.fixed.idempotencyKey == "event:" + request.event + ":agent:" + Digits(i - 1)
          && graph[i].1.content.progressMessage == "Waiting for worker")
  }

  lemma BuiltAsksEach(request: Request, agents: seq<string>, root: TaskId, children: seq<TaskId>, graph: seq<(TaskId, Task)>, n: nat)
    requires agents != [] && |children| == |agents| && n == (if |agents| == 1 then 0 else |agents|)
    requires Built(request, agents, root, children, graph, n)
    ensures AsksEach(request, agents, root, children, graph)
  {
    forall i | 1 <= i < |graph| ensures graph[i] == (children[i - 1], ChildNode(request, root, agents, i - 1)) {
      assert graph[(i - 1) + 1] == (children[i - 1], ChildNode(request, root, agents, i - 1));
    }
  }

  /** One task for one agent; for several, a synthesis root that depends on one task per agent. */
  method BuildAskGraph(request: Request, agents: seq<string>, root: TaskId, children: seq<TaskId>)
    returns (graph: seq<(TaskId, Task)>, dependencies: seq<(TaskId, TaskId)>)
    requires agents != [] && |children| == |agents|
    requires IsId(root) && forall i :: 0 <= i < |children| ==> IsId(children[i])
    ensures AskShape(request.conversation, graph) && dependencies == StarEdges(graph) && OwnKeys(graph)
    ensures AsksEach(request, agents, root, children, graph)
    ensures dependencies == if |agents| == 1 then [] else seq(|agents|, i requires 0 <= i < |agents| => (root, children[i]))
  {
    var node := AskNode(request, root, Delegated("dialog"), agents[0], RootKey(request.event), "Waiting for worker");
    if |agents| > 1 {
      node := AskNode(request, root, Synthesis, SYNTHESIZER, RootKey(request.event), "Waiting for delegated child tasks");
    }
    graph := [(root, node)];
    dependencies := [];
    ghost var n := 0;
    if |agents| > 1 {
      for i := 0 to |agents|
        invariant Built(request, agents, root, children, graph, i)
        invariant |dependencies| == i && forall k :: 0 <= k < i ==> dependencies[k] == (root, children[k])
      {
        graph := graph + [(children[i], ChildNode(request, root, agents, i))];
        dependencies := dependencies + [(root, children[i])];
      }
      n := |agents|;
    }
    BuiltHasOwnKeys(request, agents, root, children, graph, n);
    BuiltHasShape(request, agents, root, children, graph, n);
    BuiltAsksEach(request, agents, root, children, graph, n);
  }

  /** A shell task and its approval are for the same canonical input, byte for byte. */
  method BuildShellTask(id: TaskId, conversation: Option<ConversationId>, goal: string, input: string, gated: bool,
                        reason: string, correlation: string, key: string, now: int)
    returns (row: Task, approval: Option<Approval>)
    requires IsId(id)
    ensures ShellShape(id, row, gated) && row.content.input == input
    ensures approval == RequestedApproval(id, row, gated, now + 600)
    ensures approval.Some? <==> gated
    ensures row.status == (if gated then WaitingForApproval else Queued) && row.version == 1 && row.retryCount == 0
    ensures row.fixed == Fixed(id, conversation, Shell, "builtin.shell", now, 0, correlation, None, ["shell"], "shell-request:" + key)
    ensures row.content == Content(goal, input, reason, "", None, "", [])
    ensures gated ==> approval == Some(Approval(id, "shell", input, ["tool.shell.execute"], reason, Pending, now + 600, None, "", None))
  {
    var status := Queued;
    if gated {
      status := WaitingForApproval;
    }
    row := Task(
      Fixed(id, conversation, Shell, "builtin.shell", now, 0, correlation, None, ["shell"], "shell-request:" + key),
      status, 0, None, None, 0, 1, 0, false,
      Content(goal, input, reason, "", None, "", []));
    approval := None;
    if status.WaitingForApproval? {
      approval := Some(Approval(id, "shell", input, ["tool.shell.execute"], reason, Pending, now + 600, None, "", None));
    }
  }
}

/**
 The workflow contract: nodes, policies and results, as the orchestrator's callers write them.
 A node's edges are its `deps`, kept as a set: the program reads the list only through `every`, `includes` and
 a search, so order and repetition cannot be observed. A missing optional field is `None`.
 */
module WorkflowTypes {
  import opened Wrappers
  import opened Json

  /** Node names, wrapped so that they are not confused with other strings. */
  datatype Id = Id(text: string)

  /** Replay takes an event with an empty node name for one that names no node. */
  predicate Named(n: Id) {
    n.text != ""
  }

  datatype Kind = Action | Conditional | Approval

  datatype Backoff = Fixed | Exponential

  datatype RetryPolicy = RetryPolicy(
    maxAttempts: int,
    backoff: Backoff,
    retryableErrors: seq<string>,
    jitter: bool)

  datatype Compensation = Undo(action: string, input: Option<Value>) | Irreversible

  datatype Verdict = Success | Failure

  datatype NodeResult = NodeResult(status: Verdict, output: Value, evidence: seq<Value>)

  /** The two forms of a condition: on a node's verdict, or on a value inside its result. */
  datatype When =
    | OnVerdict(nodeId: Id, on: Verdict)
    | PathEquals(nodeId: Id, path: string, equals: Value)

  datatype Condition = Condition(when: When, thenBranch: seq<Id>, elseBranch: seq<Id>)

  datatype ApprovalSpec = ApprovalSpec(action: string, reason: string)

  datatype Node = Node(
    id: Id,
    kind: Kind,
    action: Option<string>,
    input: Option<Value>,
    deps: set<Id>,
    retry: Option<RetryPolicy>,
    compensation: Option<Compensation>,
    condition: Option<Condition>,
    approval: Option<ApprovalSpec>,
    agentId: Option<string>,
    tenantId: Option<string>,
    toolId: Option<string>)
}

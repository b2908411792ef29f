/** Resolving references to earlier results, and choosing the branch of a conditional. */
module Conditions {
  import opened Wrappers
  import opened WorkflowTypes
  import opened Json
  import opened CanonicalForm

  /* ---------- paths ---------- */

  /** The pieces between dots; there is always at least one. */
  function Split(path: string): (parts: seq<string>)
    ensures |parts| >= 1
  {
    if path == "" then [""]
    else
      var rest := Split(path[1..]);
      if path[0] == '.' then [""] + rest else [[path[0]] + rest[0]] + rest[1..]
  }

  function Decimal(n: nat): string {
    var digit := [('0' as int + n % 10) as char];
    if n < 10 then digit else Decimal(n / 10) + digit
  }

  /** An array's element under its decimal index, searched from `i` on, or its length. */
  function Element(items: seq<Value>, key: string, i: nat): Option<Value>
    decreases |items| - i
  {
    if i >= |items| then (if key == "length" then Some(LengthOf(items)) else None)
    else if Decimal(i) == key then Some(items[i])
    else Element(items, key, i + 1)
  }

  lemma {:induction false} DecimalIsNumeral(n: nat)
    ensures |Decimal(n)| >= 1 && AllNumeral(Decimal(n))
  {
    if n >= 10 { DecimalIsNumeral(n / 10); }
  }

  function LengthOf(items: seq<Value>): Value {
    DecimalIsNumeral(|items|);
    Num(Decimal(|items|))
  }

  function Member(v: Value, key: string): Option<Value> {
    match v
    case Obj(fields) => Lookup(fields, key)
    case Arr(items) => Element(items, key, 0)
    case _ => None
  }

  function Walk(v: Option<Value>, parts: seq<string>): Option<Value>
    decreases |parts|
  {
    if parts == [] then v
    else if v.None? then None
    else Walk(Member(v.value, parts[0]), parts[1..])
  }

  /** The value a dotted path leads to, if every step of it exists. */
  function PathValue(v: Value, path: string): Option<Value> {
    Walk(Some(v), Split(path))
  }

  /** The walk along a path, step by step. */
  method GetPath(v: Value, path: string) returns (found: Option<Value>)
    ensures found == PathValue(v, path)
  {
    var parts := Split(path);
    var i := 0;
    found := Some(v);
    while i < |parts|
      invariant 0 <= i <= |parts|
      invariant Walk(found, parts[i..]) == PathValue(v, path)
    {
      if found.None? { return None; }
      found := Member(found.value, parts[i]);
      i := i + 1;
    }
  }

  /** Walking a longer path is walking its first part and then the rest. */
  lemma {:induction false} WalkComposes(v: Option<Value>, p: seq<string>, q: seq<string>)
    ensures Walk(v, p + q) == Walk(Walk(v, p), q)
    decreases |p|
  {
    if p == [] {
      assert p + q == q;
    } else if v.Some? {
      assert (p + q)[1..] == p[1..] + q;
      WalkComposes(Member(v.value, p[0]), p[1..], q);
    } else if q != [] {
      assert p + q != [];
    }
  }

  /* ---------- references ---------- */

  function VerdictText(v: Verdict): string {
    if v.Success? then "success" else "failure"
  }

  function ResultValue(r: NodeResult): Value {
    Obj([Field("status", Str(VerdictText(r.status))), Field("output", r.output), Field("evidence", Arr(r.evidence))])
  }

  /** The node a `$ref` input names. */
  function InputRef(input: Option<Value>): Option<string> {
    if input.None? then None
    else
      match Member(input.value, "$ref")
      case Some(ref) =>
        var node, path := Member(ref, "nodeId"), Member(ref, "path");
        if node.Some? && node.value.Str? && path.Some? && path.value.Str? then Some(node.value.s) else None
      case None => None
  }

  predicate InputResolves(results: map<Id, NodeResult>, n: Node) {
    InputRef(n.input).Some? ==> Id(InputRef(n.input).value) in results
  }

  /* ---------- branches ---------- */

  predicate Matches(cond: Condition, source: NodeResult) {
    match cond.when
    case OnVerdict(_, on) => source.status == on
    case PathEquals(_, path, equals) =>
      var actual := PathValue(ResultValue(source), path);
      actual.Some? && StableStringify(actual.value) == StableStringify(equals)
  }

  /** A path condition compares values up to the order of object keys. */
  lemma {:induction false} PathConditionCompares(cond: Condition, source: NodeResult)
    requires cond.when.PathEquals? && WellFormed(cond.when.equals)
    requires var actual := PathValue(ResultValue(source), cond.when.path); actual.Some? ==> WellFormed(actual.value)
    ensures Matches(cond, source) <==>
            var actual := PathValue(ResultValue(source), cond.when.path);
            actual.Some? && Equiv(actual.value, cond.when.equals)
  {
    hide PathValue, StableStringify, Canonicalize, Equiv, WellFormed, ResultValue;
    var actual := PathValue(ResultValue(source), cond.when.path);
    SerializersAgree(cond.when.equals);
    if actual.Some? {
      SerializersAgree(actual.value);
      CanonicalFaithful(actual.value, cond.when.equals);
    }
  }

  function MatchDetail(cond: Condition, source: NodeResult): string {
    match cond.when
    case OnVerdict(_, on) => "verdict is " + VerdictText(source.status) + " (expected " + VerdictText(on) + ")"
    case PathEquals(_, path, equals) =>
      var actual := PathValue(ResultValue(source), path);
      "'" + path + "' === " + StableStringify(equals)
      + " (got " + (if actual.Some? then StableStringify(actual.value) else "undefined") + ")"
  }

  function NotChosen(cond: Condition, source: NodeResult): seq<Id> {
    if Matches(cond, source) then cond.elseBranch else cond.thenBranch
  }

  function Evidence(id: string, kind: string): Value {
    Obj([Field("evidenceId", Str(id)), Field("kind", Str(kind))])
  }

  function BranchResult(n: Id, cond: Condition, source: NodeResult): NodeResult {
    NodeResult(Success,
               Obj([Field("branch", Str(if Matches(cond, source) then "then" else "else")),
                    Field("verdict", Str(VerdictText(source.status))),
                    Field("detail", Str(MatchDetail(cond, source)))]),
               source.evidence + [Evidence("condition:" + n.text, "verification")])
  }

  function ApprovalResult(n: Node): NodeResult {
    var action := if n.approval.Some? then n.approval.value.action
                  else if n.action.Some? then n.action.value else "approval";
    NodeResult(Success,
               Obj([Field("approved", Bool(true)), Field("action", Str(action))]),
               [Evidence("approval:" + n.id.text, "approval")])
  }
}

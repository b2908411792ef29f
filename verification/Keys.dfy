/** Idempotency keys: what is hashed to identify a node's work across attempts and restarts. */
module Keys {
  import opened Wrappers
  import opened WorkflowTypes
  import opened Json
  import opened CanonicalForm
  import opened Layers

  /** The text whose hash is the key: the operation id, a NUL, and the serialized input. */
  function KeyOf(runId: string, id: Id, input: Option<Value>): string {
    runId + ":" + id.text + "\0" + StableStringify(if input.Some? then input.value else Obj([]))
  }

  function NodeKey(runId: string, g: seq<Node>, n: Id): string {
    KeyOf(runId, n, if n in ById(g) then ById(g)[n].input else None)
  }

  lemma {:induction false} NulDiffers(a: string, s: string, b: string, t: string)
    requires NoNul(s) && |a| < |b|
    ensures a + "\0" + s != b + "\0" + t
  {
    var x, y := a + "\0" + s, b + "\0" + t;
    assert y[|b|] == '\0';
    if |b| < |x| { assert x[|b|] == s[|b| - |a| - 1]; }
  }

  /** The last NUL separates the two parts of a key. */
  lemma {:induction false} LastNulSplits(a: string, s: string, b: string, t: string)
    requires NoNul(s) && NoNul(t) && a + "\0" + s == b + "\0" + t
    ensures a == b && s == t
  {
    if |a| < |b| { NulDiffers(a, s, b, t); }
    if |b| < |a| { NulDiffers(b, t, a, s); }
    var x, y := a + "\0" + s, b + "\0" + t;
    assert a == x[..|a|] && b == y[..|b|] && s == x[|a| + 1..] && t == y[|b| + 1..];
  }

  /** Within a run, different nodes, and different inputs, hash different texts. */
  lemma {:induction false} KeysInjective(runId: string, a: Id, x: Option<Value>, b: Id, y: Option<Value>)
    requires KeyOf(runId, a, x) == KeyOf(runId, b, y)
    ensures a == b
    ensures StableStringify(if x.Some? then x.value else Obj([])) ==
            StableStringify(if y.Some? then y.value else Obj([]))
  {
    var u, v := if x.Some? then x.value else Obj([]), if y.Some? then y.value else Obj([]);
    StableHasNoNul(u);
    StableHasNoNul(v);
    LastNulSplits(runId + ":" + a.text, StableStringify(u), runId + ":" + b.text, StableStringify(v));
    assert a.text == (runId + ":" + a.text)[|runId| + 1..] && b.text == (runId + ":" + b.text)[|runId| + 1..];
  }

  lemma {:induction false} NodeKeysDiffer(runId: string, g: seq<Node>, a: Id, b: Id)
    requires NodeKey(runId, g, a) == NodeKey(runId, g, b)
    ensures a == b
  {
    hide KeyOf;
    KeysInjective(runId, a, if a in ById(g) then ById(g)[a].input else None,
                  b, if b in ById(g) then ById(g)[b].input else None);
  }
}

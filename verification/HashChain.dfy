/**
 The tamper-evident log: every event carries the hash of its payload and of its predecessor's hash. The hash is a
 parameter; where collision freedom matters it is a hypothesis about exactly the texts that were hashed.
 */
module HashChain {
  import opened Wrappers
  import opened Json
  import opened CanonicalForm

  type Hash = string -> string

  datatype Draft =
      Draft(actor: string, kind: string, taskId: string, runId: string, payload: Value, evidence: seq<Value>)

  datatype LedgerEvent = LedgerEvent(
    id: string, seqNo: nat, timestamp: string, draft: Draft, prevHash: Option<string>, hash: string)

  function OrEmpty(prev: Option<string>): string {
    if prev.Some? then prev.value else ""
  }

  /** The text whose hash chains an event to its predecessor. */
  function Preimage(payload: Value, prev: Option<string>): string {
    Canonicalize(payload) + "\0" + OrEmpty(prev)
  }

  function EventHash(h: Hash, payload: Value, prev: Option<string>): string {
    h(Preimage(payload, prev))
  }

  /** The hash of the event before index `i`. */
  function PrevOf(events: seq<LedgerEvent>, i: nat): Option<string>
    requires i <= |events|
  {
    if i == 0 then None else Some(events[i - 1].hash)
  }

  predicate LinkHolds(h: Hash, events: seq<LedgerEvent>, i: nat)
    requires i < |events|
  {
    events[i].hash == EventHash(h, events[i].draft.payload, PrevOf(events, i))
      && events[i].prevHash == PrevOf(events, i)
  }

  ghost predicate ChainValid(h: Hash, events: seq<LedgerEvent>) {
    forall i | 0 <= i < |events| :: LinkHolds(h, events, i)
  }

  /* ---------- verification ---------- */

  datatype ChainVerification = Intact | Broken(index: nat, expected: string, actual: string)

  function OrNull(prev: Option<string>): string {
    if prev.Some? then prev.value else "(null)"
  }

  /** What is reported of a broken link: the hashes if they differ, otherwise the back references. */
  function Report(h: Hash, events: seq<LedgerEvent>, i: nat): ChainVerification
    requires i < |events|
  {
    var expected := EventHash(h, events[i].draft.payload, PrevOf(events, i));
    if events[i].hash != expected then Broken(i, expected, events[i].hash)
    else Broken(i, OrNull(PrevOf(events, i)), OrNull(events[i].prevHash))
  }

  /** Reports the first broken link, if any. */
  method VerifyChain(h: Hash, events: seq<LedgerEvent>) returns (r: ChainVerification)
    ensures r.Intact? <==> ChainValid(h, events)
    ensures r.Broken? ==>
              && r.index < |events| && !LinkHolds(h, events, r.index)
              && (forall i | 0 <= i < r.index :: LinkHolds(h, events, i))
              && r == Report(h, events, r.index)
  {
    var prev: Option<string> := None;
    var i := 0;
    while i < |events|
      invariant 0 <= i <= |events| && prev == PrevOf(events, i)
      invariant forall j | 0 <= j < i :: LinkHolds(h, events, j)
    {
      var ev := events[i];
      var expected := EventHash(h, ev.draft.payload, prev);
      if ev.hash != expected {
        assert !LinkHolds(h, events, i);
        return Broken(i, expected, ev.hash);
      }
      if ev.prevHash != prev {
        assert !LinkHolds(h, events, i);
        return Broken(i, OrNull(prev), OrNull(ev.prevHash));
      }
      prev := Some(ev.hash);
      i := i + 1;
    }
    return Intact;
  }

  /* ---------- the ledger ---------- */

  class Ledger {
    const h: Hash
    var events: seq<LedgerEvent>

    /** Events are numbered in order and form a valid chain. */
    ghost predicate Valid()
      reads this
    {
      ChainValid(h, events) && forall i | 0 <= i < |events| :: events[i].seqNo == i
    }

    constructor (h: Hash)
      ensures this.h == h && events == [] && Valid()
    {
      this.h := h;
      events := [];
    }

    /** `id` and `timestamp` stand for the random identifier and the clock. */
    method Append(draft: Draft, id: string, timestamp: string) returns (e: LedgerEvent)
      requires Valid()
      modifies this
      ensures Valid() && events == old(events) + [e]
      ensures e.draft == draft && e.id == id && e.timestamp == timestamp && e.seqNo == |old(events)|
      ensures e.prevHash == PrevOf(old(events), |old(events)|)
      ensures e.hash == EventHash(h, draft.payload, e.prevHash)
    {
      var prevHash := if events == [] then None else Some(events[|events| - 1].hash);
      e := LedgerEvent(id, |events|, timestamp, draft, prevHash, EventHash(h, draft.payload, prevHash));
      AppendValid(h, events, e);
      events := events + [e];
    }

    /** A ledger that was only ever appended to always verifies. */
    method VerifyIntegrity() returns (r: ChainVerification)
      requires Valid()
      ensures r.Intact?
    {
      r := VerifyChain(h, events);
    }
  }

  lemma {:induction false} AppendValid(h: Hash, events: seq<LedgerEvent>, e: LedgerEvent)
    requires ChainValid(h, events)
    requires e.prevHash == PrevOf(events, |events|) && e.hash == EventHash(h, e.draft.payload, e.prevHash)
    ensures ChainValid(h, events + [e])
  {
    hide EventHash;
    forall i | 0 <= i < |events + [e]|
      ensures LinkHolds(h, events + [e], i)
    {
      if i < |events| {
        assert LinkHolds(h, events, i);
        assert PrevOf(events + [e], i) == PrevOf(events, i);
      } else {
        assert PrevOf(events + [e], i) == PrevOf(events, i);
      }
    }
  }

  /* ---------- what the head hash commits to ---------- */

  /** A valid chain is determined by its payloads, up to the order of object keys. */
  lemma {:induction false} ChainDetermined(h: Hash, a: seq<LedgerEvent>, b: seq<LedgerEvent>)
    requires ChainValid(h, a) && ChainValid(h, b) && |a| == |b|
    requires forall i | 0 <= i < |a| :: Canonicalize(a[i].draft.payload) == Canonicalize(b[i].draft.payload)
    ensures forall i | 0 <= i < |a| :: a[i].hash == b[i].hash && a[i].prevHash == b[i].prevHash
  {
    hide Canonicalize;
    if a != [] {
      var last := |a| - 1;
      PrefixValid(h, a, last);
      PrefixValid(h, b, last);
      ChainDetermined(h, a[..last], b[..last]);
      assert LinkHolds(h, a, last) && LinkHolds(h, b, last);
      if last > 0 { assert a[..last][last - 1] == a[last - 1] && b[..last][last - 1] == b[last - 1]; }
      forall i | 0 <= i < |a|
        ensures a[i].hash == b[i].hash && a[i].prevHash == b[i].prevHash
      {
        if i < last { assert a[..last][i] == a[i] && b[..last][i] == b[i]; }
      }
    }
  }

  lemma {:induction false} PrefixValid(h: Hash, events: seq<LedgerEvent>, k: nat)
    requires ChainValid(h, events) && k <= |events|
    ensures ChainValid(h, events[..k])
  {
    hide EventHash;
    forall i | 0 <= i < k
      ensures LinkHolds(h, events[..k], i)
    {
      assert LinkHolds(h, events, i);
      if i > 0 { assert events[..k][i - 1] == events[i - 1]; }
    }
  }

  /** The texts hashed along a chain. */
  ghost function Hashed(events: seq<LedgerEvent>): set<string> {
    set i | 0 <= i < |events| :: Preimage(events[i].draft.payload, PrevOf(events, i))
  }

  /** On the given texts the hash has no collision and is never empty. */
  ghost predicate CollisionFree(h: Hash, texts: set<string>) {
    (forall x, y | x in texts && y in texts :: h(x) == h(y) ==> x == y) && forall x | x in texts :: h(x) != ""
  }

  lemma {:induction false} CanonicalHasNoNul(v: Value)
    requires WellFormed(v)
    ensures NoNul(Canonicalize(v))
  {
    SerializersAgree(v);
    StableHasNoNul(v);
  }

  lemma {:induction false} FirstNulSplits(a: string, s: string, b: string, t: string)
    requires NoNul(a) && NoNul(b) && a + "\0" + s == b + "\0" + t
    ensures a == b && s == t
  {
    if |a| < |b| { NulEarlier(a, s, b, t); }
    if |b| < |a| { NulEarlier(b, t, a, s); }
    var x, y := a + "\0" + s, b + "\0" + t;
    assert a == x[..|a|] && b == y[..|b|] && s == x[|a| + 1..] && t == y[|b| + 1..];
  }

  lemma {:induction false} NulEarlier(a: string, s: string, b: string, t: string)
    requires NoNul(b) && |a| < |b|
    ensures a + "\0" + s != b + "\0" + t
  {
    var x, y := a + "\0" + s, b + "\0" + t;
    assert x[|a|] == '\0';
    assert y[|a|] == b[|a|];
  }

  ghost predicate PayloadsWellFormed(events: seq<LedgerEvent>) {
    forall i | 0 <= i < |events| :: WellFormed(events[i].draft.payload)
  }

  /**
   Two valid chains with the same head hash, if their hashed texts do not collide, have the same length and payloads
   that are equal up to the order of object keys.
   */
  lemma {:induction false} HeadBindsPayloads(h: Hash, a: seq<LedgerEvent>, b: seq<LedgerEvent>)
    requires ChainValid(h, a) && ChainValid(h, b) && PayloadsWellFormed(a) && PayloadsWellFormed(b)
    requires a != [] && b != [] && a[|a| - 1].hash == b[|b| - 1].hash
    requires CollisionFree(h, Hashed(a) + Hashed(b))
    ensures |a| == |b|
    ensures forall i | 0 <= i < |a| :: Equiv(a[i].draft.payload, b[i].draft.payload)
    decreases |a|
  {
    hide Canonicalize, WellFormed, Equiv, CollisionFree, ChainValid, Hashed, EventHash, PrevOf;
    var i, j := |a| - 1, |b| - 1;
    LastLinksMatch(h, a, b);
    CanonicalFaithful(a[i].draft.payload, b[j].draft.payload);
    if i > 0 && j > 0 {
      PrefixValid(h, a, i);
      PrefixValid(h, b, j);
      HashedPrefix(a, i);
      HashedPrefix(b, j);
      FewerTexts(h, Hashed(a) + Hashed(b), Hashed(a[..i]) + Hashed(b[..j]));
      assert a[..i][i - 1] == a[i - 1] && b[..j][j - 1] == b[j - 1];
      HeadBindsPayloads(h, a[..i], b[..j]);
      forall k | 0 <= k < |a|
        ensures Equiv(a[k].draft.payload, b[k].draft.payload)
      {
        if k < i { assert a[..i][k] == a[k] && b[..j][k] == b[k]; }
      }
    }
  }

  lemma {:induction false} FewerTexts(h: Hash, more: set<string>, fewer: set<string>)
    requires CollisionFree(h, more) && fewer <= more
    ensures CollisionFree(h, fewer)
  {}

  lemma {:induction false} HashedPrefix(events: seq<LedgerEvent>, k: nat)
    requires k <= |events|
    ensures Hashed(events[..k]) <= Hashed(events)
  {
    hide Preimage;
    forall x | x in Hashed(events[..k])
      ensures x in Hashed(events)
    {
      var i :| 0 <= i < k && x == Preimage(events[..k][i].draft.payload, PrevOf(events[..k], i));
      HashedMember(events, i);
      if i > 0 { assert events[..k][i - 1] == events[i - 1]; }
    }
  }

  lemma {:induction false} HashedMember(events: seq<LedgerEvent>, i: nat)
    requires i < |events|
    ensures Preimage(events[i].draft.payload, PrevOf(events, i)) in Hashed(events)
  {}

  /** At equal head hashes the payload and the predecessor's hash agree, and both or neither is the first event. */
  lemma {:induction false} LastLinksMatch(h: Hash, a: seq<LedgerEvent>, b: seq<LedgerEvent>)
    requires ChainValid(h, a) && ChainValid(h, b) && PayloadsWellFormed(a) && PayloadsWellFormed(b)
    requires a != [] && b != [] && a[|a| - 1].hash == b[|b| - 1].hash
    requires CollisionFree(h, Hashed(a) + Hashed(b))
    ensures WellFormed(a[|a| - 1].draft.payload) && WellFormed(b[|b| - 1].draft.payload)
    ensures Canonicalize(a[|a| - 1].draft.payload) == Canonicalize(b[|b| - 1].draft.payload)
    ensures |a| == 1 <==> |b| == 1
    ensures |a| > 1 && |b| > 1 ==> a[|a| - 2].hash == b[|b| - 2].hash
  {
    hide Canonicalize, WellFormed;
    var i, j := |a| - 1, |b| - 1;
    assert LinkHolds(h, a, i) && LinkHolds(h, b, j);
    HashedMember(a, i);
    HashedMember(b, j);
    CanonicalHasNoNul(a[i].draft.payload);
    CanonicalHasNoNul(b[j].draft.payload);
    FirstNulSplits(Canonicalize(a[i].draft.payload), OrEmpty(PrevOf(a, i)), Canonicalize(b[j].draft.payload),
      OrEmpty(PrevOf(b, j)));
    if i > 0 {
      assert LinkHolds(h, a, i - 1);
      HashedMember(a, i - 1);
    }
    if j > 0 {
      assert LinkHolds(h, b, j - 1);
      HashedMember(b, j - 1);
    }
  }

  /** Changing one payload of a valid chain breaks exactly that link, unless the two texts collide. */
  lemma {:induction false} TamperingFound(h: Hash, events: seq<LedgerEvent>, k: nat, payload: Value)
    requires ChainValid(h, events) && k < |events|
    requires EventHash(h, payload, PrevOf(events, k)) != EventHash(h, events[k].draft.payload, PrevOf(events, k))
    ensures var bad := events[k := events[k].(draft := events[k].draft.(payload := payload))];
            forall i | 0 <= i < |bad| :: LinkHolds(h, bad, i) <==> i != k
  {
    hide EventHash;
    var bad := events[k := events[k].(draft := events[k].draft.(payload := payload))];
    forall i | 0 <= i < |bad|
      ensures LinkHolds(h, bad, i) <==> i != k
    {
      assert LinkHolds(h, events, i);
      assert PrevOf(bad, i) == PrevOf(events, i);
    }
  }

  /** The chain commits to payloads only: it stays valid whatever else of its events is replaced. */
  lemma {:induction false} OnlyPayloadsBound(h: Hash, a: seq<LedgerEvent>, b: seq<LedgerEvent>)
    requires ChainValid(h, a) && |a| == |b|
    requires forall i | 0 <= i < |a| ::
               b[i].draft.payload == a[i].draft.payload && b[i].hash == a[i].hash && b[i].prevHash == a[i].prevHash
    ensures ChainValid(h, b)
  {
    hide EventHash;
    forall i | 0 <= i < |b|
      ensures LinkHolds(h, b, i)
    {
      assert LinkHolds(h, a, i);
      assert PrevOf(b, i) == PrevOf(a, i);
    }
  }
}

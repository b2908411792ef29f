/**
 The write-behind ledger: appends are kept in memory and pending until a flush moves them, as one batch, to the store;
 after a crash the log is rebuilt from the store. Payloads are assumed to come back from the store unchanged.
 */
module DurableLedger {
  import opened Wrappers
  import opened HashChain

  /** The durable store, as an atomic append-only sequence. */
  class EventStore {
    var stored: seq<LedgerEvent>

    constructor ()
      ensures stored == []
    {
      stored := [];
    }

    method Append(batch: seq<LedgerEvent>)
      modifies this
      ensures stored == old(stored) + batch
    {
      stored := stored + batch;
    }
  }

  /** An event without its random identifier and its time of creation, which a rebuilt event gets anew. */
  function Content(e: LedgerEvent): LedgerEvent {
    e.(id := "", timestamp := "")
  }

  function Contents(events: seq<LedgerEvent>): (cs: seq<LedgerEvent>)
    ensures |cs| == |events| && forall i | 0 <= i < |events| :: cs[i] == Content(events[i])
  {
    seq(|events|, i requires 0 <= i < |events| => Content(events[i]))
  }

  lemma {:induction false} ContentsConcat(a: seq<LedgerEvent>, b: seq<LedgerEvent>)
    ensures Contents(a + b) == Contents(a) + Contents(b)
  {}

  datatype HydrateError = StoredChainInvalid(at: nat) | HashMismatch(at: nat)

  ghost predicate Numbered(events: seq<LedgerEvent>) {
    forall i | 0 <= i < |events| :: events[i].seqNo == i
  }

  ghost predicate WellKept(h: Hash, events: seq<LedgerEvent>) {
    ChainValid(h, events) && Numbered(events)
  }

  /** Validity does not look at identifiers and timestamps. */
  lemma {:induction false} WellKeptByContent(h: Hash, a: seq<LedgerEvent>, b: seq<LedgerEvent>)
    requires WellKept(h, a) && Contents(a) == Contents(b)
    ensures WellKept(h, b)
  {
    hide EventHash;
    assert |Contents(a)| == |a| && |Contents(b)| == |b|;
    forall i | 0 <= i < |b|
      ensures LinkHolds(h, b, i) && b[i].seqNo == i
    {
      assert LinkHolds(h, a, i);
      assert Contents(a)[i] == Contents(b)[i];
      if i > 0 { assert Contents(a)[i - 1] == Contents(b)[i - 1]; }
      assert PrevOf(b, i) == PrevOf(a, i);
    }
  }

  lemma {:induction false} WellKeptPrefix(h: Hash, a: seq<LedgerEvent>, k: nat)
    requires WellKept(h, a) && k <= |a|
    ensures WellKept(h, a[..k])
  {
    PrefixValid(h, a, k);
  }

  class DurableLedger {
    const h: Hash
    const store: EventStore
    var events: seq<LedgerEvent>
    var pending: seq<LedgerEvent>

    /**
     What is stored and what is pending together make up the log in memory, up to the identifiers and timestamps a
     rebuilt event was given.
     */
    ghost predicate Valid()
      reads this, store
    {
      WellKept(h, events) && Contents(store.stored + pending) == Contents(events)
    }

    /** The same without that proviso: holds as long as the ledger was not rebuilt. */
    ghost predicate Exact()
      reads this, store
    {
      store.stored + pending == events
    }

    constructor (h: Hash, store: EventStore)
      ensures this.h == h && this.store == store && events == [] && pending == []
      ensures store.stored == [] ==> Valid() && Exact()
    {
      this.h := h;
      this.store := store;
      events := [];
      pending := [];
    }

    /** The inherited append: extends the log in memory only. */
    method AppendInMemory(draft: Draft, id: string, timestamp: string) returns (e: LedgerEvent)
      modifies this`events
      ensures events == old(events) + [e]
      ensures e.draft == draft && e.id == id && e.timestamp == timestamp && e.seqNo == |old(events)|
      ensures e.prevHash == PrevOf(old(events), |old(events)|) && e.hash == EventHash(h, draft.payload, e.prevHash)
      ensures old(WellKept(h, events)) ==> WellKept(h, events)
    {
      var prevHash := if events == [] then None else Some(events[|events| - 1].hash);
      e := LedgerEvent(id, |events|, timestamp, draft, prevHash, EventHash(h, draft.payload, prevHash));
      if ChainValid(h, events) { AppendValid(h, events, e); }
      events := events + [e];
    }

    method Append(draft: Draft, id: string, timestamp: string) returns (e: LedgerEvent)
      requires Valid()
      modifies this
      ensures Valid() && (old(Exact()) ==> Exact())
      ensures events == old(events) + [e] && pending == old(pending) + [e]
      ensures e.draft == draft && e.seqNo == |old(events)| && e.hash == EventHash(h, draft.payload, e.prevHash)
    {
      e := AppendInMemory(draft, id, timestamp);
      ContentsConcat(store.stored + pending, [e]);
      ContentsConcat(old(events), [e]);
      assert store.stored + (pending + [e]) == (store.stored + pending) + [e];
      pending := pending + [e];
    }

    /** Moves everything pending to the store, in order; the log in memory stays as it is. */
    method Flush()
      requires Valid()
      modifies this`pending, store
      ensures Valid() && (old(Exact()) ==> Exact())
      ensures store.stored == old(store.stored) + old(pending) && pending == []
    {
      if |pending| == 0 {
        assert old(store.stored) + old(pending) == store.stored;
        return;
      }
      var batch := pending;
      pending := [];
      store.Append(batch);
      assert store.stored + [] == old(store.stored) + old(pending);
    }

    /**
     Rebuilds the log from the store, behind whatever is in memory already. It fails before anything is appended exactly
     when the stored chain is broken, and after the first event exactly when that event's hash does not follow from what
     was in memory; on an empty ledger it always does. Otherwise every stored event is given back but for identifier,
     timestamp, number and first back reference; nothing is left pending.
     */
    method Hydrate(ids: seq<string>, timestamp: string) returns (r: Result<(), HydrateError>)
      requires |ids| == |store.stored|
      modifies this`events
      ensures r.Ok? <==> ChainValid(h, store.stored) && Follows(h, old(events), store.stored)
      ensures old(events) == [] && ChainValid(h, store.stored) ==> Follows(h, old(events), store.stored)
      ensures r.Err? && !ChainValid(h, store.stored) ==>
                && r.error.StoredChainInvalid? && r.error.at < |store.stored| && !LinkHolds(h, store.stored, r.error.at)
                && (forall i | 0 <= i < r.error.at :: LinkHolds(h, store.stored, i)) && events == old(events)
      ensures r.Err? && ChainValid(h, store.stored) ==>
                && store.stored != [] && r.error == HashMismatch(store.stored[0].seqNo)
                && Behind(old(events), store.stored, ids, timestamp, events, 0)
      ensures r.Ok? ==> Behind(old(events), store.stored, ids, timestamp, events, |store.stored|)
      ensures r.Ok? && old(events) == [] ==>
                && |events| == |store.stored| && WellKept(h, events)
                && (forall i | 0 <= i < |events| ::
                      events[i] == store.stored[i].(id := ids[i], timestamp := timestamp, seqNo := i))
      ensures old(WellKept(h, events)) ==> WellKept(h, events)
      ensures old(events) == [] && r.Ok? && pending == [] && Numbered(store.stored) ==> Valid()
    {
      hide EventHash;
      var all := store.stored;
      FirstFollows(h, all);
      if |all| == 0 {
        assert store.stored + pending == pending;
        return Ok(());
      }
      var check := VerifyChain(h, all);
      if check.Broken? { return Err(StoredChainInvalid(check.index)); }
      var failed := Rebuild(ids, timestamp);
      if failed.Some? { return Err(HashMismatch(all[failed.value].seqNo)); }
      if old(events) == [] {
        AllBehindNothing(h, all, ids, timestamp, events);
        if pending == [] && Numbered(all) {
          assert store.stored + pending == all;
          assert Contents(all) == Contents(events);
        }
      }
      return Ok(());
    }

    /** The loop over the stored events, up to one whose hash is not reproduced; that can only be the first of all. */
    method Rebuild(ids: seq<string>, timestamp: string) returns (failed: Option<nat>)
      requires |ids| == |store.stored| && store.stored != [] && ChainValid(h, store.stored)
      modifies this`events
      ensures failed == if Follows(h, old(events), store.stored) then None else Some(0)
      ensures Behind(old(events), store.stored, ids, timestamp, events, if failed.None? then |store.stored| else 0)
      ensures failed.None? ==> |events| == |old(events)| + |store.stored|
      ensures old(WellKept(h, events)) ==> WellKept(h, events)
    {
      hide EventHash, WellKept, ChainValid, Follows, Behind;
      var i := 0;
      BehindNothing(events, store.stored, ids, timestamp);
      while i < |store.stored|
        invariant 0 <= i <= |store.stored| && Behind(old(events), store.stored, ids, timestamp, events, i)
        invariant |events| == |old(events)| + i && (i > 0 ==> Follows(h, old(events), store.stored))
        invariant old(WellKept(h, events)) ==> WellKept(h, events)
      {
        var e := store.stored[i];
        ghost var now := events;
        var rebuilt := AppendInMemory(e.draft, ids[i], timestamp);
        RebuiltOne(h, old(events), store.stored, ids, timestamp, now, i, rebuilt);
        if rebuilt.hash != e.hash { return Some(i); }
        i := i + 1;
      }
      return None;
    }
  }

  /** The first stored event chains to the last event in memory. */
  predicate Follows(h: Hash, events: seq<LedgerEvent>, stored: seq<LedgerEvent>) {
    stored == [] || EventHash(h, stored[0].draft.payload, PrevOf(events, |events|)) == stored[0].hash
  }

  /** The stored event as it is rebuilt at position `at`. */
  function Reborn(e: LedgerEvent, id: string, timestamp: string, at: nat, prev: Option<string>): LedgerEvent {
    e.(id := id, timestamp := timestamp, seqNo := at, prevHash := prev)
  }

  /** The log now: what was in memory, `k` stored events rebuilt behind it, and possibly one more. */
  ghost predicate Behind(before: seq<LedgerEvent>, stored: seq<LedgerEvent>, ids: seq<string>, timestamp: string,
      now: seq<LedgerEvent>, k: nat)
    requires |ids| == |stored|
  {
    && k <= |stored| && |before| + k <= |now| <= |before| + k + 1 && now[..|before|] == before
    && (forall j | 0 <= j < k ::
          now[|before| + j] == Reborn(stored[j], ids[j], timestamp, |before| + j, PrevOf(now, |before| + j)))
  }

  lemma {:induction false} FirstFollows(h: Hash, stored: seq<LedgerEvent>)
    ensures ChainValid(h, stored) ==> Follows(h, [], stored)
  {
    hide EventHash;
    if stored != [] && ChainValid(h, stored) { assert LinkHolds(h, stored, 0); }
  }

  /**
   While rebuilding, the event to chain to is the last in memory for the first stored event, and then the stored one.
   */
  lemma {:induction false} RebornPrev(before: seq<LedgerEvent>, stored: seq<LedgerEvent>, ids: seq<string>,
      timestamp: string,
      now: seq<LedgerEvent>, i: nat)
    requires |ids| == |stored| && i < |stored| && |now| == |before| + i
             && Behind(before, stored, ids, timestamp, now, i)
    ensures PrevOf(now, |now|) == (if i == 0 then PrevOf(before, |before|) else PrevOf(stored, i))
  {
    if i == 0 {
      assert now == before;
    } else {
      var last := i - 1;
      assert now[|before| + last] ==
        Reborn(stored[last], ids[last], timestamp, |before| + last, PrevOf(now, |before| + last));
    }
  }

  lemma {:induction false} BehindNothing(before: seq<LedgerEvent>, stored: seq<LedgerEvent>, ids: seq<string>,
      timestamp: string)
    requires |ids| == |stored|
    ensures Behind(before, stored, ids, timestamp, before, 0)
  {}

  /** The event that rebuilds stored event `i` either has its hash, or is the first and does not follow. */
  lemma {:induction false} RebuiltOne(h: Hash, before: seq<LedgerEvent>, stored: seq<LedgerEvent>, ids: seq<string>,
      timestamp: string, now: seq<LedgerEvent>, i: nat, e: LedgerEvent)
    requires |ids| == |stored| && i < |stored| && |now| == |before| + i && ChainValid(h, stored)
    requires Behind(before, stored, ids, timestamp, now, i)
    requires e.draft == stored[i].draft && e.id == ids[i] && e.timestamp == timestamp && e.seqNo == |now|
    requires e.prevHash == PrevOf(now, |now|) && e.hash == EventHash(h, e.draft.payload, e.prevHash)
    ensures if e.hash == stored[i].hash
            then Behind(before, stored, ids, timestamp, now + [e], i + 1) && (i == 0 ==> Follows(h, before, stored))
            else i == 0 && !Follows(h, before, stored) && Behind(before, stored, ids, timestamp, now + [e], 0)
  {
    hide EventHash, ChainValid;
    RebornPrev(before, stored, ids, timestamp, now, i);
    LinkAt(h, stored, i);
    if e.hash == stored[i].hash {
      assert (now + [e])[..|before|] == now[..|before|];
      assert PrevOf(now + [e], |now|) == PrevOf(now, |now|);
    } else {
      assert now + [e] == before + [e];
    }
  }

  lemma {:induction false} LinkAt(h: Hash, stored: seq<LedgerEvent>, i: nat)
    requires ChainValid(h, stored) && i < |stored|
    ensures LinkHolds(h, stored, i)
  {}

  lemma {:induction false} AllBehindNothing(h: Hash, stored: seq<LedgerEvent>, ids: seq<string>, timestamp: string,
      now: seq<LedgerEvent>)
    requires |ids| == |stored| == |now| && Behind([], stored, ids, timestamp, now, |stored|) && ChainValid(h, stored)
    ensures forall i | 0 <= i < |now| :: now[i] == stored[i].(id := ids[i], timestamp := timestamp, seqNo := i)
  {
    hide EventHash;
    forall i | 0 <= i < |now|
      ensures now[i] == stored[i].(id := ids[i], timestamp := timestamp, seqNo := i)
    {
      assert LinkHolds(h, stored, i);
      assert now[0 + i] == Reborn(stored[i], ids[i], timestamp, 0 + i, PrevOf(now, 0 + i));
      if i > 0 {
        var last := i - 1;
        assert now[0 + last] == Reborn(stored[last], ids[last], timestamp, 0 + last, PrevOf(now, 0 + last));
      }
    }
  }

  /**
   A process that crashes loses exactly what it had not flushed: a new ledger on the same store rebuilds the flushed
   prefix of the old one's log, with equal numbers, hashes, back references and payloads.
   */
  method Recover(crashed: DurableLedger, ids: seq<string>, timestamp: string)
    returns (next: DurableLedger, r: Result<(), HydrateError>)
    requires crashed.Valid() && |ids| == |crashed.store.stored|
    ensures r.Ok? && next.store == crashed.store && next.h == crashed.h && next.Valid() && next.pending == []
    ensures |crashed.store.stored| <= |crashed.events|
    ensures Contents(next.events) == Contents(crashed.events[..|crashed.store.stored|])
  {
    next := new DurableLedger(crashed.h, crashed.store);
    StoredIsPrefix(crashed.h, crashed.store.stored, crashed.pending, crashed.events);
    r := next.Hydrate(ids, timestamp);
    assert next.store.stored + next.pending == next.store.stored;
  }

  lemma {:induction false} StoredIsPrefix(h: Hash, stored: seq<LedgerEvent>, pending: seq<LedgerEvent>,
      events: seq<LedgerEvent>)
    requires WellKept(h, events) && Contents(stored + pending) == Contents(events)
    ensures |stored| <= |events| && Contents(stored) == Contents(events[..|stored|]) && WellKept(h, stored)
  {
    assert |Contents(stored + pending)| == |stored| + |pending| == |events|;
    forall i | 0 <= i < |stored|
      ensures Contents(stored)[i] == Contents(events[..|stored|])[i]
    {
      assert Contents(stored + pending)[i] == Contents(events)[i];
      assert (stored + pending)[i] == stored[i];
    }
    assert |Contents(stored)| == |Contents(events[..|stored|])|;
    assert Contents(stored) == Contents(events[..|stored|]);
    WellKeptPrefix(h, events, |stored|);
    WellKeptByContent(h, events[..|stored|], stored);
  }
}

/**
 The mempool as a value: payload digests that wait for a proposal, and the payloads that are stored.
 */
module Mempools {
  import opened Wrappers
  import opened Messages

  datatype Mempool = Mempool(queue: seq<PayloadDigest>, stored: set<PayloadDigest>)

  /** What waits for a proposal is stored. */
  ghost predicate MempoolOk(m: Mempool) {
    forall p :: p in m.queue ==> p in m.stored
  }

  function Missing(m: Mempool, payload: seq<PayloadDigest>): set<PayloadDigest> {
    set p | p in payload && p !in m.stored
  }

  function Retain(queue: seq<PayloadDigest>, removed: seq<PayloadDigest>): (r: seq<PayloadDigest>)
    ensures forall p :: p in r <==> p in queue && p !in removed
  {
    if queue == [] then []
    else if queue[0] in removed then Retain(queue[1..], removed)
    else [queue[0]] + Retain(queue[1..], removed)
  }

  /** Nothing of the removed is left, and everything else is there as often as before. */
  lemma {:induction false} RetainCounts(queue: seq<PayloadDigest>, removed: seq<PayloadDigest>, p: PayloadDigest)
    ensures multiset(Retain(queue, removed))[p] == if p in removed then 0 else multiset(queue)[p]
  {
    if queue != [] {
      RetainCounts(queue[1..], removed, p);
      assert multiset(queue) == multiset{queue[0]} + multiset(queue[1..]) by {
        assert queue == [queue[0]] + queue[1..];
      }
    }
  }

  /** Each part of a queue is treated by itself, so what is kept stays in its order. */
  lemma {:induction false} RetainDistributes(a: seq<PayloadDigest>, b: seq<PayloadDigest>, removed: seq<PayloadDigest>)
    ensures Retain(a + b, removed) == Retain(a, removed) + Retain(b, removed)
  {
    if a == [] {
      assert a + b == b;
    } else {
      RetainDistributes(a[1..], b, removed);
      assert (a + b)[0] == a[0] && (a + b)[1..] == a[1..] + b;
      var kept, keptOfB := Retain(a[1..], removed), Retain(b, removed);
      assert [a[0]] + (kept + keptOfB) == ([a[0]] + kept) + keptOfB;
    }
  }

  lemma {:induction false} RemoveAll(queue: seq<PayloadDigest>, removed: seq<PayloadDigest>)
    requires forall p :: p in queue ==> p in removed
    ensures Retain(queue, removed) == []
  {
    if queue != [] {
      RemoveAll(queue[1..], removed);
    }
  }

  /** The payload for a new block; `made` is what the payload maker has to offer. */
  function GetPayload(maxPayloads: nat, queueCapacity: nat, m: Mempool, made: Option<PayloadDigest>)
    : (Mempool, seq<PayloadDigest>)
  {
    if m.queue == [] then
      if made.Some? && queueCapacity > 0 then (m.(stored := m.stored + {made.value}), [made.value])
      else (m, [])
    else
      var digests := m.queue[..if maxPayloads < |m.queue| then maxPayloads else |m.queue|];
      (m.(queue := Retain(m.queue, digests)), digests)
  }

  /** Our own clients' payloads need room in the queue, those of others must not be too big. */
  predicate Accepts(queueCapacity: nat, m: Mempool, own: bool, oversized: bool) {
    if own then |m.queue| < queueCapacity else !oversized
  }

  function Receive(queueCapacity: nat, m: Mempool, p: PayloadDigest, own: bool, oversized: bool): Mempool {
    if Accepts(queueCapacity, m, own, oversized) then Mempool(m.queue + [p], m.stored + {p}) else m
  }

  lemma GetPayloadKeepsMempool(maxPayloads: nat, queueCapacity: nat, m: Mempool, made: Option<PayloadDigest>)
    requires MempoolOk(m)
    ensures var (m', payload) := GetPayload(maxPayloads, queueCapacity, m, made);
      MempoolOk(m') && m.stored <= m'.stored && forall p :: p in payload ==> p in m'.stored
  {
  }

  /** With an empty queue the payload maker's offer is taken, stored first, if the queue has any room at all. */
  lemma ProposalTakesOffer(maxPayloads: nat, queueCapacity: nat, m: Mempool, made: Option<PayloadDigest>)
    requires m.queue == []
    ensures GetPayload(maxPayloads, queueCapacity, m, made) ==
      if made.Some? && queueCapacity > 0 then (Mempool([], m.stored + {made.value}), [made.value]) else (m, [])
  {
  }

  /** A proposal takes the front of the queue; whatever else is in the queue stays unless it was taken, too. */
  lemma ProposalTakesFront(maxPayloads: nat, queueCapacity: nat, m: Mempool, made: Option<PayloadDigest>)
    requires m.queue != []
    ensures var (m', payload) := GetPayload(maxPayloads, queueCapacity, m, made);
      && payload <= m.queue && |payload| <= maxPayloads && (maxPayloads > 0 ==> payload != [])
      && m'.queue == Retain(m.queue[|payload|..], payload)
  {
    var payload := GetPayload(maxPayloads, queueCapacity, m, made).1;
    RetainDistributes(payload, m.queue[|payload|..], payload);
    assert m.queue == payload + m.queue[|payload|..];
    RemoveAll(payload, payload);
  }
}

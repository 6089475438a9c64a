/**
 What the background tasks of the two synchronizers know: the blocks that wait for their parents, and
 those that wait for their payload.
 */
module Synchronizers {
  import opened Wrappers
  import opened Messages

  // Waiting for parents

  /** A task that waits for a block's parent; `id` stands for the channel over which the store answers. */
  datatype ParentWaiter = ParentWaiter(id: nat, block: Block)

  /** `inbox` is the channel to the task. */
  datatype ParentState = ParentState(
    inbox: seq<Block>,
    pending: set<Digest>,
    waiting: set<ParentWaiter>,
    requests: set<Digest>,
    nextId: nat)

  const NO_PARENTS_AWAITED := ParentState([], {}, {}, {}, 0)

  /** What to ask the other nodes for: the first block that waits for a parent has it requested. */
  function ParentRequest(s: ParentState, b: Block): Option<Digest> {
    if b.Digest() in s.pending || b.qc.hash in s.requests then None else Some(b.qc.hash)
  }

  /** A second variant of a pending block is dropped. */
  function AwaitParent(s: ParentState, b: Block): ParentState {
    if b.Digest() in s.pending then s
    else s.(pending := s.pending + {b.Digest()}, waiting := s.waiting + {ParentWaiter(s.nextId, b)},
            requests := s.requests + {b.qc.hash}, nextId := s.nextId + 1)
  }

  function ParentArrived(s: ParentState, w: ParentWaiter): ParentState {
    s.(pending := s.pending - {w.block.Digest()}, waiting := s.waiting - {w},
       requests := s.requests - {w.block.qc.hash})
  }

  /** There is one waiter per pending digest, each with a channel of its own. */
  ghost predicate ParentsOk(s: ParentState) {
    && (forall d :: d in s.pending ==> exists w :: w in s.waiting && w.block.Digest() == d)
    && (forall w :: w in s.waiting ==> w.block.Digest() in s.pending && w.id < s.nextId)
    && (forall w, u :: w in s.waiting && u in s.waiting && w.id == u.id ==> w == u)
    && (forall w, u :: w in s.waiting && u in s.waiting && w.block.Digest() == u.block.Digest() ==> w == u)
  }

  lemma AwaitParentKeepsOk(s: ParentState, b: Block)
    requires ParentsOk(s)
    ensures ParentsOk(AwaitParent(s, b))
    ensures exists w :: w in AwaitParent(s, b).waiting && w.block.Digest() == b.Digest()
  {
    var t := AwaitParent(s, b);
    if b.Digest() !in s.pending {
      assert ParentWaiter(s.nextId, b) in t.waiting;
      forall d | d in t.pending ensures exists w :: w in t.waiting && w.block.Digest() == d {
        if d != b.Digest() {
          var w :| w in s.waiting && w.block.Digest() == d;
          assert w in t.waiting;
        }
      }
    }
  }

  /** Every newly waiting block has its parent requested, and nothing is requested that was requested before. */
  lemma ParentIsRequested(s: ParentState, b: Block)
    ensures var t, request := AwaitParent(s, b), ParentRequest(s, b);
      && t.requests == s.requests + (if request.Some? then {request.value} else {})
      && (request.Some? ==> request.value == b.qc.hash && request.value !in s.requests)
      && (t.waiting != s.waiting ==> b.qc.hash in t.requests && t.waiting == s.waiting + {ParentWaiter(s.nextId, b)})
      && (b.Digest() !in s.pending ==> ParentWaiter(s.nextId, b) in t.waiting)
  {
  }

  lemma ParentArrivedKeepsOk(s: ParentState, w: ParentWaiter)
    requires ParentsOk(s) && w in s.waiting
    ensures ParentsOk(ParentArrived(s, w))
  {
    var t := ParentArrived(s, w);
    forall d | d in t.pending ensures exists u :: u in t.waiting && u.block.Digest() == d {
      var u :| u in s.waiting && u.block.Digest() == d;
      assert u in t.waiting;
    }
  }

  // Waiting for payload

  datatype SynchronizerMessage = Sync(missing: set<PayloadDigest>, block: Block) | Clean(round: Round)

  /** A task that waits for the missing payload of a block; `id` also stands for the channel that cancels it. */
  datatype Waiter = Waiter(id: nat, block: Block, missing: set<PayloadDigest>)

  datatype Pending = Pending(round: Round, id: nat)

  datatype PayloadState = PayloadState(
    inbox: seq<SynchronizerMessage>,
    pending: map<Digest, Pending>,
    waiting: set<Waiter>,
    requests: map<PayloadDigest, Round>,
    nextId: nat)

  const NO_PAYLOAD_AWAITED := PayloadState([], map[], {}, map[], 0)

  /** Nothing is requested for a pending block, and otherwise what was not requested before. */
  function PayloadRequests(s: PayloadState, m: SynchronizerMessage): set<PayloadDigest>
    requires m.Sync?
  {
    if m.block.Digest() in s.pending then {} else m.missing - s.requests.Keys
  }

  /** What a message does: cleaning up forgets the blocks and requests of old rounds, and so cancels waiters. */
  function HandleMessage(s: PayloadState, m: SynchronizerMessage): PayloadState {
    match m
    case Sync(missing, b) =>
      if b.Digest() in s.pending then s
      else s.(pending := s.pending[b.Digest() := Pending(b.round, s.nextId)],
              waiting := s.waiting + {Waiter(s.nextId, b, missing)},
              requests := s.requests + map p | p in PayloadRequests(s, m) :: b.round,
              nextId := s.nextId + 1)
    case Clean(round) =>
      s.(pending := map d | d in s.pending && s.pending[d].round > round :: s.pending[d],
         requests := map p | p in s.requests && s.requests[p] > round :: s.requests[p])
  }

  /** The block is no longer pending, for any of its waiters. */
  function PayloadArrived(s: PayloadState, w: Waiter): PayloadState {
    s.(pending := s.pending - {w.block.Digest()}, waiting := s.waiting - {w},
       requests := s.requests - set p | p in w.block.payload)
  }

  function GivenUp(s: PayloadState, w: Waiter): PayloadState {
    s.(waiting := s.waiting - {w})
  }

  /** The waiter has not been cancelled: the sender of its channel is kept among the pending blocks. */
  predicate Live(s: PayloadState, w: Waiter) {
    w.block.Digest() in s.pending && s.pending[w.block.Digest()].id == w.id
  }

  ghost predicate HasLiveWaiter(s: PayloadState, d: Digest) {
    exists w :: w in s.waiting && w.block.Digest() == d && Live(s, w)
  }

  /** Every pending block has a live waiter, and no two waiters share a channel. */
  ghost predicate PendingOk(s: PayloadState) {
    && (forall d :: d in s.pending ==> HasLiveWaiter(s, d))
    && (forall w :: w in s.waiting ==> w.id < s.nextId)
    && (forall w, u :: w in s.waiting && u in s.waiting && w.id == u.id ==> w == u)
  }

  /** Missing is what the block's payload needs beyond what is stored. */
  predicate WaitsForMissing(missing: set<PayloadDigest>, b: Block, stored: set<PayloadDigest>) {
    && (forall p :: p in b.payload ==> p in stored || p in missing)
    && (forall p :: p in missing ==> p in b.payload)
  }

  lemma HandleMessageKeepsPending(s: PayloadState, m: SynchronizerMessage)
    requires PendingOk(s)
    ensures PendingOk(HandleMessage(s, m))
    ensures m.Sync? ==> HasLiveWaiter(HandleMessage(s, m), m.block.Digest())
  {
    match m
    case Sync(missing, b) =>
      if b.Digest() !in s.pending {
        SuspendingKeepsPending(s, missing, b);
      }
    case Clean(round) => ForgettingKeepsPending(s, HandleMessage(s, m));
  }

  lemma SuspendingKeepsPending(s: PayloadState, missing: set<PayloadDigest>, b: Block)
    requires PendingOk(s) && b.Digest() !in s.pending
    ensures var t := HandleMessage(s, Sync(missing, b)); PendingOk(t) && HasLiveWaiter(t, b.Digest())
  {
    var t, w := HandleMessage(s, Sync(missing, b)), Waiter(s.nextId, b, missing);
    assert w in t.waiting && Live(t, w);
    forall d | d in t.pending ensures HasLiveWaiter(t, d) {
      if d != b.Digest() {
        var u :| u in s.waiting && u.block.Digest() == d && Live(s, u);
        assert u in t.waiting && Live(t, u);
      }
    }
  }

  /** Forgetting blocks, or waiters of blocks that are not pending any more. */
  lemma ForgettingKeepsPending(s: PayloadState, t: PayloadState)
    requires PendingOk(s) && t.waiting <= s.waiting && t.nextId == s.nextId
    requires forall d :: d in t.pending ==> d in s.pending && t.pending[d] == s.pending[d]
    requires forall w :: w in s.waiting && Live(t, w) ==> w in t.waiting
    ensures PendingOk(t)
  {
    forall d | d in t.pending ensures HasLiveWaiter(t, d) {
      assert HasLiveWaiter(s, d);
      var w :| w in s.waiting && w.block.Digest() == d && Live(s, w);
      assert Live(t, w);
    }
  }

  /** A newly waiting block waits for all that it misses, all of which is requested, each payload once. */
  lemma PayloadIsRequested(s: PayloadState, missing: set<PayloadDigest>, b: Block)
    ensures var t, requested := HandleMessage(s, Sync(missing, b)), PayloadRequests(s, Sync(missing, b));
      && t.requests.Keys == s.requests.Keys + requested && requested !! s.requests.Keys
      && (forall p :: p in s.requests ==> t.requests[p] == s.requests[p])
      && (forall p :: p in requested ==> t.requests[p] == b.round)
      && (b.Digest() !in s.pending ==> missing <= t.requests.Keys && Waiter(s.nextId, b, missing) in t.waiting)
      && (b.Digest() in s.pending ==> t == s)
  {
  }

  lemma InboxKeepsPending(payloads: PayloadState, inbox: seq<SynchronizerMessage>)
    requires PendingOk(payloads)
    ensures PendingOk(payloads.(inbox := inbox))
  {
    ForgettingKeepsPending(payloads, payloads.(inbox := inbox));
  }

  lemma PayloadArrivedKeepsPending(s: PayloadState, w: Waiter)
    requires PendingOk(s) && w in s.waiting
    ensures PendingOk(PayloadArrived(s, w))
  {
    ForgettingKeepsPending(s, PayloadArrived(s, w));
  }

  /** A cancelled waiter may give up; no pending block is forgotten by that. */
  lemma GivenUpKeepsPending(s: PayloadState, w: Waiter)
    requires PendingOk(s) && !Live(s, w)
    ensures PendingOk(GivenUp(s, w))
  {
    ForgettingKeepsPending(s, GivenUp(s, w));
  }
}

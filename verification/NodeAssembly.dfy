/**
 A node with all its tasks: the core, the store and the two synchronizers that loop suspended blocks back.

 Here a block is looped back only when the store has answered the block's waiter.
 */
module NodeAssembly {
  import opened Wrappers
  import opened Committees
  import opened Messages
  import opened Mempools
  import opened Aggregators
  import opened HotStuffSafety
  import opened HotStuffNode
  import opened Stores
  import opened Synchronizers

  /** `history` is what the store was told, `toCore` are the blocks on their way back to the core. */
  datatype Assembly = Assembly(
    node: NodeState,
    history: seq<Command>,
    parents: ParentState,
    payloads: PayloadState,
    toCore: multiset<Block>)

  datatype Move =
    | CoreReacts(x: Stimulus, writes: seq<Command>)
    | ParentReceived
    | ParentAsked(pw: ParentWaiter)
    | ParentResumed(pw: ParentWaiter)
    | PayloadReceived
    | PayloadAsked(w: Waiter, p: PayloadDigest)
    | PayloadResumed(w: Waiter)
    | PayloadGivenUp(w: Waiter)
    | CleanSent(round: Round)

  // Where the core's suspensions go

  function ToParents(suspensions: seq<Suspension>): seq<Block> {
    if suspensions == [] then []
    else
      var rest, last := ToParents(suspensions[..|suspensions| - 1]), suspensions[|suspensions| - 1];
      if last.AwaitsParent? then rest + [last.block] else rest
  }

  function ToPayloads(suspensions: seq<Suspension>): seq<SynchronizerMessage> {
    if suspensions == [] then []
    else
      var rest, last := ToPayloads(suspensions[..|suspensions| - 1]), suspensions[|suspensions| - 1];
      if last.AwaitsPayload? then rest + [Sync(last.missing, last.block)] else rest
  }

  function ToCore(suspensions: seq<Suspension>): multiset<Block> {
    if suspensions == [] then multiset{}
    else
      var rest, last := ToCore(suspensions[..|suspensions| - 1]), suspensions[|suspensions| - 1];
      if last.OwnProposal? then rest + multiset{last.block} else rest
  }

  lemma {:induction false} SuspensionsSplit(suspensions: seq<Suspension>)
    ensures forall b :: b in ToParents(suspensions) ==> AwaitsParent(b) in suspensions
    ensures forall m :: m in ToPayloads(suspensions) ==> m.Sync? && AwaitsPayload(m.block, m.missing) in suspensions
    ensures forall b :: b in ToCore(suspensions) ==> OwnProposal(b) in suspensions
  {
    if suspensions != [] {
      SuspensionsSplit(suspensions[..|suspensions| - 1]);
    }
  }

  predicate InStore(s: NodeState, key: Key) {
    match key
    case BlockKey(d) => d in s.blocks
    case PayloadKey(p) => p in s.mempool.stored
  }

  /** The commands write what is stored in `t` but not in `s`, and perhaps again what is stored. */
  ghost predicate WritesOf(commands: seq<Command>, s: NodeState, t: NodeState) {
    && (forall c :: c in commands ==> c.Write? && InStore(t, c.key))
    && forall key :: InStore(t, key) && !InStore(s, key) ==> Writes(commands, key)
  }

  // Moves

  ghost predicate Enabled(cfg: Config, w: World, a: Assembly, move: Move) {
    match move
    case CoreReacts(x, writes) =>
      && GenuineEvent(w, x.event)
      && (x.event.LoopBack? ==> x.event.block in a.toCore)
      && WritesOf(writes, a.node, React(cfg, a.node, x))
    case ParentReceived => a.parents.inbox != []
    case ParentAsked(pw) => pw in a.parents.waiting
    case ParentResumed(pw) =>
      pw in a.parents.waiting && HasReply(ExecuteAll(a.history), BlockKey(pw.block.qc.hash), ParentReader(pw.id))
    case PayloadReceived => a.payloads.inbox != []
    case PayloadAsked(w, p) => w in a.payloads.waiting && p in w.missing
    case PayloadResumed(w) =>
      && w in a.payloads.waiting
      && forall p :: p in w.missing ==> HasReply(ExecuteAll(a.history), PayloadKey(p), PayloadReader(w.id))
    case PayloadGivenUp(w) => w in a.payloads.waiting && !Live(a.payloads, w)
    case CleanSent(_) => true
  }

  ghost function CoreMoved(cfg: Config, a: Assembly, x: Stimulus, writes: seq<Command>): Assembly {
    var t := React(cfg, a.node, x);
    var suspensions := t.suspensions[|a.node.suspensions|..];
    Assembly(
      t,
      a.history + writes,
      a.parents.(inbox := a.parents.inbox + ToParents(suspensions)),
      a.payloads.(inbox := a.payloads.inbox + ToPayloads(suspensions)),
      (if x.event.LoopBack? then a.toCore - multiset{x.event.block} else a.toCore) + ToCore(suspensions))
  }

  ghost function Moved(cfg: Config, a: Assembly, move: Move): Assembly
    requires move.ParentReceived? ==> a.parents.inbox != []
    requires move.PayloadReceived? ==> a.payloads.inbox != []
  {
    match move
    case CoreReacts(x, writes) => CoreMoved(cfg, a, x, writes)
    case ParentReceived =>
      a.(parents := AwaitParent(a.parents.(inbox := a.parents.inbox[1..]), a.parents.inbox[0]))
    case ParentAsked(pw) => a.(history := a.history + [NotifyRead(BlockKey(pw.block.qc.hash), ParentReader(pw.id))])
    case ParentResumed(pw) => a.(parents := ParentArrived(a.parents, pw), toCore := a.toCore + multiset{pw.block})
    case PayloadReceived =>
      a.(payloads := HandleMessage(a.payloads.(inbox := a.payloads.inbox[1..]), a.payloads.inbox[0]))
    case PayloadAsked(w, p) => a.(history := a.history + [NotifyRead(PayloadKey(p), PayloadReader(w.id))])
    case PayloadResumed(w) => a.(payloads := PayloadArrived(a.payloads, w), toCore := a.toCore + multiset{w.block})
    case PayloadGivenUp(w) => a.(payloads := GivenUp(a.payloads, w))
    case CleanSent(round) => a.(payloads := a.payloads.(inbox := a.payloads.inbox + [Clean(round)]))
  }

  // The invariant

  /** The block was suspended and can go on as far as its payload is concerned. */
  predicate Ready(s: NodeState, b: Block) {
    IsSuspended(s, b) && HasPayload(s, b)
  }

  predicate Awaited(s: NodeState, missing: set<PayloadDigest>, b: Block) {
    IsSuspended(s, b) && WaitsForMissing(missing, b, s.mempool.stored)
  }

  /** The store of the tasks holds what the core takes for stored. */
  ghost predicate StoreMatches(s: NodeState, history: seq<Command>) {
    forall key :: key in ExecuteAll(history).db <==> InStore(s, key)
  }

  ghost predicate ParentsReady(s: NodeState, parents: ParentState) {
    && ParentsOk(parents)
    && (forall b :: b in parents.inbox ==> Ready(s, b))
    && (forall w :: w in parents.waiting ==> Ready(s, w.block))
    && (forall w :: w in parents.waiting ==> w.block.qc.hash in parents.requests || w.block.qc.hash in s.blocks)
  }

  ghost predicate PayloadsAwaited(s: NodeState, payloads: PayloadState) {
    && PendingOk(payloads)
    && (forall m :: m in payloads.inbox && m.Sync? ==> Awaited(s, m.missing, m.block))
    && (forall w :: w in payloads.waiting ==> Awaited(s, w.missing, w.block))
  }

  predicate AllReady(s: NodeState, toCore: multiset<Block>) {
    forall b :: b in toCore ==> Ready(s, b)
  }

  ghost predicate AssemblyOk(a: Assembly) {
    && StoreMatches(a.node, a.history)
    && ParentsReady(a.node, a.parents)
    && PayloadsAwaited(a.node, a.payloads)
    && AllReady(a.node, a.toCore)
  }

  // What the core hands over is in order

  predicate Suspends(s: NodeState, t: NodeState, p: Suspension) {
    s.suspensions <= t.suspensions && p in t.suspensions[|s.suspensions|..]
  }

  predicate InOrder(s: NodeState, p: Suspension) {
    match p
    case AwaitsPayload(b, missing) => Awaited(s, missing, b)
    case _ => Ready(s, p.block)
  }

  lemma OwnProposalInOrder(cfg: Config, s: NodeState, tc: Option<TC>, made: Option<PayloadDigest>, p: Suspension)
    requires MempoolOk(s.mempool) && Suspends(s, ProposeIfLeader(cfg, s, tc, made), p)
    ensures InOrder(ProposeIfLeader(cfg, s, tc, made), p)
  {
    GetPayloadKeepsMempool(cfg.maxPayloads, cfg.queueCapacity, s.mempool, made);
    assert p in ProposeIfLeader(cfg, s, tc, made).suspensions;
  }

  lemma OnVoteInOrder(cfg: Config, s: NodeState, v: Vote, made: Option<PayloadDigest>, p: Suspension)
    requires MempoolOk(s.mempool) && Suspends(s, HandleVote(cfg, s, v, made), p)
    ensures InOrder(HandleVote(cfg, s, v, made), p)
  {
    var (aggregator, r) := WithVote(cfg.committee, s.aggregator, v);
    OwnProposalInOrder(cfg, ProcessQC(s.(aggregator := aggregator), r.value.value), None, made, p);
  }

  lemma OnTimeoutInOrder(cfg: Config, s: NodeState, m: Timeout, made: Option<PayloadDigest>, p: Suspension)
    requires MempoolOk(s.mempool) && Suspends(s, HandleTimeout(cfg, s, m, made), p)
    ensures InOrder(HandleTimeout(cfg, s, m, made), p)
  {
    var (aggregator, r) := WithTimeout(cfg.committee, s.aggregator, m);
    OwnProposalInOrder(cfg, AdvanceRound(s.(aggregator := aggregator), r.value.value.round), r.value, made, p);
  }

  lemma ProcessingInOrder(s: NodeState, b: Block, p: Suspension)
    requires HasPayload(s, b) && Suspends(s, ProcessBlock(s, b), p)
    ensures InOrder(ProcessBlock(s, b), p)
  {
    assert p in ProcessBlock(s, b).suspensions;
  }

  lemma ProcessOrSuspendInOrder(s: NodeState, b: Block, p: Suspension)
    requires Suspends(s, ProcessOrSuspend(s, b), p)
    ensures InOrder(ProcessOrSuspend(s, b), p)
  {
    if HasPayload(s, b) {
      ProcessingInOrder(s, b, p);
    } else {
      assert p in ProcessOrSuspend(s, b).suspensions;
    }
  }

  lemma CertificatesSuspendNothing(s: NodeState, b: Block)
    ensures ProcessCertificates(s, b).suspensions == s.suspensions
  {
  }

  lemma OnProposalInOrder(cfg: Config, s: NodeState, b: Block, p: Suspension)
    requires Suspends(s, HandleProposal(cfg, s, b), p)
    ensures InOrder(HandleProposal(cfg, s, b), p)
  {
    var s1 := ProcessCertificates(s, b);
    CertificatesSuspendNothing(s, b);
    if b.author == cfg.leader(b.round) && ValidBlock(cfg.committee, b) {
      ProcessOrSuspendInOrder(s1, b, p);
    }
  }

  lemma SuspensionInOrder(cfg: Config, s: NodeState, x: Stimulus, p: Suspension)
    requires MempoolOk(s.mempool) && Suspends(s, React(cfg, s, x), p)
    requires x.event.LoopBack? ==> HasPayload(s, x.event.block)
    ensures InOrder(React(cfg, s, x), p)
  {
    match x.event
    case VoteArrives(v) => OnVoteInOrder(cfg, s, v, x.made, p);
    case TimeoutArrives(m) => OnTimeoutInOrder(cfg, s, m, x.made, p);
    case TimerFires => OnTimeoutInOrder(cfg, SignTimeout(s), NewTimeout(s), x.made, p);
    case Propose(b) => OnProposalInOrder(cfg, s, b, p);
    case LoopBack(b) => ProcessingInOrder(s, b, p);
    case _ =>
  }

  lemma BootInOrder(cfg: Config, name: PublicKey, boycott: bool, made: Option<PayloadDigest>, p: Suspension)
    requires p in Boot(cfg, name, boycott, made).suspensions
    ensures InOrder(Boot(cfg, name, boycott, made), p)
  {
    var start := Start(name, boycott);
    OwnProposalInOrder(cfg, start, None, made, p);
  }

  // Every move keeps the invariant

  lemma WritingKeepsMatch(s: NodeState, t: NodeState, history: seq<Command>, writes: seq<Command>)
    requires StoreMatches(s, history) && WritesOf(writes, s, t)
    requires forall key :: InStore(s, key) ==> InStore(t, key)
    ensures StoreMatches(t, history + writes)
  {
    forall key ensures key in ExecuteAll(history + writes).db <==> InStore(t, key) {
      StoredGrows(history, writes, key);
    }
  }

  lemma AskingKeepsMatch(s: NodeState, history: seq<Command>, key: Key, reader: Reader)
    requires StoreMatches(s, history)
    ensures StoreMatches(s, history + [NotifyRead(key, reader)])
  {
    forall k ensures k in ExecuteAll(history + [NotifyRead(key, reader)]).db <==> InStore(s, k) {
      StoredGrows(history, [NotifyRead(key, reader)], k);
    }
  }

  lemma ReadyStays(s: NodeState, t: NodeState, b: Block)
    requires Later(s, t) && Ready(s, b)
    ensures Ready(t, b)
  {
  }

  lemma AwaitedStays(s: NodeState, t: NodeState, missing: set<PayloadDigest>, b: Block)
    requires Later(s, t) && Awaited(s, missing, b)
    ensures Awaited(t, missing, b)
  {
  }

  ghost predicate NewInOrder(s: NodeState, t: NodeState) {
    Later(s, t) && forall p :: p in t.suspensions[|s.suspensions|..] ==> InOrder(t, p)
  }

  lemma CoreKeepsParents(s: NodeState, t: NodeState, parents: ParentState)
    requires ParentsReady(s, parents) && NewInOrder(s, t)
    ensures ParentsReady(t, parents.(inbox := parents.inbox + ToParents(t.suspensions[|s.suspensions|..])))
  {
    SuspensionsSplit(t.suspensions[|s.suspensions|..]);
    forall b | Ready(s, b) ensures Ready(t, b) {
      ReadyStays(s, t, b);
    }
    forall b | b in ToParents(t.suspensions[|s.suspensions|..]) ensures Ready(t, b) {
      assert InOrder(t, AwaitsParent(b));
    }
  }

  lemma CoreKeepsPayloads(s: NodeState, t: NodeState, payloads: PayloadState)
    requires PayloadsAwaited(s, payloads) && NewInOrder(s, t)
    ensures PayloadsAwaited(t, payloads.(inbox := payloads.inbox + ToPayloads(t.suspensions[|s.suspensions|..])))
  {
    var more := ToPayloads(t.suspensions[|s.suspensions|..]);
    SuspensionsSplit(t.suspensions[|s.suspensions|..]);
    forall missing, b | Awaited(s, missing, b) ensures Awaited(t, missing, b) {
      AwaitedStays(s, t, missing, b);
    }
    forall m | m in more ensures m.Sync? && Awaited(t, m.missing, m.block) {
      assert InOrder(t, AwaitsPayload(m.block, m.missing));
    }
    InboxKeepsPending(payloads, payloads.inbox + more);
  }

  lemma CoreKeepsQueue(s: NodeState, t: NodeState, toCore: multiset<Block>)
    requires AllReady(s, toCore) && NewInOrder(s, t)
    ensures AllReady(t, toCore + ToCore(t.suspensions[|s.suspensions|..]))
  {
    SuspensionsSplit(t.suspensions[|s.suspensions|..]);
    forall b | b in toCore + ToCore(t.suspensions[|s.suspensions|..]) ensures Ready(t, b) {
      if b in toCore {
        ReadyStays(s, t, b);
      } else {
        assert InOrder(t, OwnProposal(b));
      }
    }
  }

  lemma CoreSuspendsInOrder(cfg: Config, s: NodeState, x: Stimulus)
    requires MempoolOk(s.mempool) && (x.event.LoopBack? ==> HasPayload(s, x.event.block))
    ensures NewInOrder(s, React(cfg, s, x))
  {
    var t := React(cfg, s, x);
    forall p | p in t.suspensions[|s.suspensions|..] ensures InOrder(t, p) {
      SuspensionInOrder(cfg, s, x, p);
    }
  }

  lemma CoreKeepsOk(cfg: Config, w: World, a: Assembly, x: Stimulus, writes: seq<Command>)
    requires AssemblyOk(a) && MempoolOk(a.node.mempool) && Enabled(cfg, w, a, CoreReacts(x, writes))
    ensures AssemblyOk(CoreMoved(cfg, a, x, writes))
  {
    var t := React(cfg, a.node, x);
    assert x.event.LoopBack? ==> Ready(a.node, x.event.block);
    CoreSuspendsInOrder(cfg, a.node, x);
    WritingKeepsMatch(a.node, t, a.history, writes);
    CoreKeepsParents(a.node, t, a.parents);
    CoreKeepsPayloads(a.node, t, a.payloads);
    CoreKeepsQueue(a.node, t, if x.event.LoopBack? then a.toCore - multiset{x.event.block} else a.toCore);
  }

  lemma AwaitParentKeepsReady(s: NodeState, parents: ParentState, b: Block)
    requires ParentsReady(s, parents) && Ready(s, b)
    ensures ParentsReady(s, AwaitParent(parents, b))
  {
    AwaitParentKeepsOk(parents, b);
  }

  lemma ParentReceivedKeepsReady(s: NodeState, parents: ParentState)
    requires ParentsReady(s, parents) && parents.inbox != []
    ensures ParentsReady(s, AwaitParent(parents.(inbox := parents.inbox[1..]), parents.inbox[0]))
  {
    assert parents.inbox[0] in parents.inbox;
    AwaitParentKeepsReady(s, parents.(inbox := parents.inbox[1..]), parents.inbox[0]);
  }

  lemma PayloadReceivedKeepsAwaited(s: NodeState, payloads: PayloadState)
    requires PayloadsAwaited(s, payloads) && payloads.inbox != []
    ensures PayloadsAwaited(s, HandleMessage(payloads.(inbox := payloads.inbox[1..]), payloads.inbox[0]))
  {
    assert payloads.inbox[0] in payloads.inbox;
    InboxKeepsPending(payloads, payloads.inbox[1..]);
    HandleMessageKeepsPending(payloads.(inbox := payloads.inbox[1..]), payloads.inbox[0]);
  }

  /** What the payload synchronizer loops back can go on, and is then no longer awaited. */
  lemma PayloadResumedIsReady(a: Assembly, w: Waiter)
    requires StoreMatches(a.node, a.history) && PayloadsAwaited(a.node, a.payloads) && w in a.payloads.waiting
    requires forall p :: p in w.missing ==> HasReply(ExecuteAll(a.history), PayloadKey(p), PayloadReader(w.id))
    ensures Ready(a.node, w.block) && PayloadsAwaited(a.node, PayloadArrived(a.payloads, w))
  {
    forall p | p in w.missing ensures p in a.node.mempool.stored {
      RepliedIffAskedAndStored(a.history, PayloadKey(p), PayloadReader(w.id));
      assert InStore(a.node, PayloadKey(p));
    }
    assert Awaited(a.node, w.missing, w.block);
    PayloadArrivedKeepsPending(a.payloads, w);
  }

  lemma ParentResumedKeepsReady(s: NodeState, parents: ParentState, pw: ParentWaiter)
    requires ParentsReady(s, parents) && pw in parents.waiting && pw.block.qc.hash in s.blocks
    ensures Ready(s, pw.block) && ParentsReady(s, ParentArrived(parents, pw))
  {
    ParentArrivedKeepsOk(parents, pw);
  }

  lemma OneMoreIsReady(s: NodeState, toCore: multiset<Block>, b: Block)
    requires AllReady(s, toCore) && Ready(s, b)
    ensures AllReady(s, toCore + multiset{b})
  {
  }

  lemma MoveKeepsOk(cfg: Config, w: World, a: Assembly, move: Move)
    requires AssemblyOk(a) && MempoolOk(a.node.mempool) && Enabled(cfg, w, a, move)
    ensures AssemblyOk(Moved(cfg, a, move))
  {
    match move
    case CoreReacts(x, writes) => CoreKeepsOk(cfg, w, a, x, writes);
    case ParentReceived => ParentReceivedKeepsReady(a.node, a.parents);
    case ParentAsked(pw) => AskingKeepsMatch(a.node, a.history, BlockKey(pw.block.qc.hash), ParentReader(pw.id));
    case ParentResumed(pw) =>
      RepliedIffAskedAndStored(a.history, BlockKey(pw.block.qc.hash), ParentReader(pw.id));
      assert InStore(a.node, BlockKey(pw.block.qc.hash));
      ParentResumedKeepsReady(a.node, a.parents, pw);
      OneMoreIsReady(a.node, a.toCore, pw.block);
    case PayloadReceived => PayloadReceivedKeepsAwaited(a.node, a.payloads);
    case PayloadAsked(waiter, p) => AskingKeepsMatch(a.node, a.history, PayloadKey(p), PayloadReader(waiter.id));
    case PayloadResumed(waiter) =>
      PayloadResumedIsReady(a, waiter);
      OneMoreIsReady(a.node, a.toCore, waiter.block);
    case PayloadGivenUp(waiter) => GivenUpKeepsPending(a.payloads, waiter);
    case CleanSent(round) => InboxKeepsPending(a.payloads, a.payloads.inbox + [Clean(round)]);
  }
}

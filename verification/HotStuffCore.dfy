/**
 The HotStuff core as the program has it: an object whose handlers update its fields. Each handler is
 proved to compute the function of the same name in HotStuffNode.
 */
module HotStuffCore {
  import opened Wrappers
  import opened Committees
  import opened Messages
  import opened Aggregators
  import opened HotStuffSafety
  import Node = HotStuffNode
  import opened Mempools
  import opened MempoolCores

  ghost predicate Closed(store: map<Digest, Block>) {
    forall d :: d in store ==> Node.GetParent(store, store[d]).Some?
  }

  lemma ClosedGrows(store: map<Digest, Block>, b: Block)
    requires Closed(store) && Node.GetParent(store, b).Some?
    ensures Closed(store[b.Digest() := b])
  {
  }

  class Core {
    const cfg: Node.Config
    const name: PublicKey
    const boycottProposals: bool
    const aggregator: Aggregator
    const mempool: MempoolCore
    var round: Round
    var lastVotedRound: Round
    var highQc: QC
    var store: map<Digest, Block>
    var suspensions: seq<Node.Suspension>
    var networkChannel: seq<Act>
    var commitChannel: seq<Node.Commit>

    ghost function Repr(): set<object>
      reads this, aggregator
    {
      {this, mempool} + aggregator.Repr()
    }

    /** Above all: parents of stored blocks are stored. */
    ghost predicate Valid()
      reads this, aggregator, mempool
    {
      && aggregator.Valid() && aggregator.committee == cfg.committee
      && mempool.maxPayloads == cfg.maxPayloads && mempool.queueCapacity == cfg.queueCapacity
      && Closed(store)
    }

    ghost function State(): Node.NodeState
      reads this, mempool, aggregator, aggregator.votesAggregators.Values, aggregator.timeoutsAggregators.Values
    {
      Node.NodeState(name, boycottProposals, round, lastVotedRound, highQc, aggregator.State(),
                     store, suspensions, mempool.State(), networkChannel, commitChannel)
    }

    constructor (cfg: Node.Config, name: PublicKey, boycottProposals: bool)
      ensures Valid() && fresh(Repr())
      ensures State() == Node.Start(name, boycottProposals)
      ensures this.cfg == cfg
    {
      this.cfg := cfg;
      this.name := name;
      this.boycottProposals := boycottProposals;
      aggregator := new Aggregator(cfg.committee);
      mempool := new MempoolCore(cfg.maxPayloads, cfg.queueCapacity);
      round, lastVotedRound, highQc := 1, 0, GENESIS_QC;
      store, suspensions := map[], [];
      networkChannel, commitChannel := [], [];
    }

    /** What `run` does before it enters its loop. */
    method Boot(made: Option<PayloadDigest>)
      requires Valid() && State() == Node.Start(name, boycottProposals)
      modifies this, mempool
      ensures Valid() && Repr() == old(Repr())
      ensures State() == Node.Boot(cfg, name, boycottProposals, made)
    {
      ProposeIfLeader(None, made);
    }

    method ProposeIfLeader(tc: Option<TC>, made: Option<PayloadDigest>)
      requires Valid()
      modifies this, mempool
      ensures Valid() && Repr() == old(Repr())
      ensures State() == Node.ProposeIfLeader(cfg, old(State()), tc, made)
    {
      if name == cfg.leader(round) {
        GenerateProposal(tc, made);
      }
    }

    method IncreaseLastVotedRound(target: Round)
      modifies this`lastVotedRound
      ensures lastVotedRound >= target && lastVotedRound >= old(lastVotedRound)
      ensures lastVotedRound in {old(lastVotedRound), target}
    {
      lastVotedRound := if lastVotedRound < target then target else lastVotedRound;
    }

    /** Whether the safety rules allow a vote; the largest reported round exists as the TC was verified. */
    method CheckSafetyRules(block: Block) returns (ok: bool)
      requires block.tc.Some? ==> block.tc.value.votes != []
      ensures ok <==> Node.CanVote(State(), block)
    {
      var safetyRule1 := block.round > lastVotedRound;
      var safetyRule2 := block.qc.round + 1 == block.round;
      if block.tc.Some? {
        var tc := block.tc.value;
        var canExtend := tc.round + 1 == block.round;
        canExtend := canExtend && block.qc.round >= Max(tc.HighQcRounds());
        SkippingIsSafe(tc, block.qc.round);
        safetyRule2 := safetyRule2 || canExtend;
      }
      return safetyRule1 && safetyRule2;
    }

    method MakeVote(block: Block) returns (vote: Option<Vote>)
      requires Valid() && (block.tc.Some? ==> block.tc.value.votes != [])
      modifies `lastVotedRound, `networkChannel
      ensures Valid()
      ensures State() == Node.VoteFor(old(State()), block)
      ensures vote.Some? <==> Node.CanVote(old(State()), block)
      ensures vote.Some? ==> vote.value.hash == block.Digest() && vote.value.round == block.round
                             && vote.value.author == name && vote.value.WellSigned()
    {
      var ok := CheckSafetyRules(block);
      if !ok {
        return None;
      }
      var signed := SignVote(block);
      return Some(signed);
    }

    method SignVote(block: Block) returns (vote: Vote)
      requires Valid()
      modifies `lastVotedRound, `networkChannel
      ensures Valid()
      ensures State() == Node.SignVote(old(State()), block)
      ensures vote.hash == block.Digest() && vote.round == block.round && vote.author == name && vote.WellSigned()
    {
      IncreaseLastVotedRound(block.round);
      networkChannel := networkChannel + [Voted(block)];
      return Vote(block.Digest(), block.round, name, Signed(name, VoteStatement(block.Digest(), block.round)));
    }

    method UpdateHighQc(qc: QC)
      requires Valid()
      modifies `highQc
      ensures Valid()
      ensures State() == Node.UpdateHighQc(old(State()), qc)
    {
      if qc.round > highQc.round {
        highQc := qc;
      }
    }

    method SignTimeout() returns (timeout: Timeout)
      requires Valid()
      modifies `lastVotedRound, `networkChannel
      ensures Valid()
      ensures State() == Node.SignTimeout(old(State())) && timeout == Node.NewTimeout(old(State()))
    {
      IncreaseLastVotedRound(round);
      networkChannel := networkChannel + [TimedOut(round, highQc.round)];
      return Timeout(highQc.round, round, name, Signed(name, TimeoutStatement(round, highQc.round)));
    }

    method LocalTimeoutRound(made: Option<PayloadDigest>)
      requires Valid()
      modifies Repr()
      ensures Valid() && fresh(Repr() - old(Repr()))
      ensures State() == Node.LocalTimeoutRound(cfg, old(State()), made)
    {
      var timeout := SignTimeout();
      HandleTimeout(timeout, made);
    }

    method HandleVote(vote: Vote, made: Option<PayloadDigest>)
      requires Valid()
      modifies Repr()
      ensures Valid() && fresh(Repr() - old(Repr()))
      ensures State() == Node.HandleVote(cfg, old(State()), vote, made)
    {
      if vote.round < round || cfg.committee.Stake(vote.author) == 0 || !vote.WellSigned() {
        return;
      }
      var r := Collect(vote);
      if r.Success? && r.value.Some? {
        ProposeOnQC(r.value.value, made);
      }
    }

    method Collect(vote: Vote) returns (r: Result<Option<QC>, ConsensusError>)
      requires Valid()
      modifies aggregator.Repr()
      ensures Valid() && fresh(Repr() - old(Repr()))
      ensures (State().aggregator, r) == WithVote(cfg.committee, old(State()).aggregator, vote)
      ensures State() == old(State()).(aggregator := State().aggregator)
    {
      r := aggregator.AddVote(vote);
    }

    method CollectTimeout(timeout: Timeout) returns (r: Result<Option<TC>, ConsensusError>)
      requires Valid()
      modifies aggregator.Repr()
      ensures Valid() && fresh(Repr() - old(Repr()))
      ensures (State().aggregator, r) == WithTimeout(cfg.committee, old(State()).aggregator, timeout)
      ensures State() == old(State()).(aggregator := State().aggregator)
    {
      r := aggregator.AddTimeout(timeout);
    }

    method ProposeOnQC(qc: QC, made: Option<PayloadDigest>)
      requires Valid()
      modifies this, aggregator, mempool
      ensures Valid() && Repr() <= old(Repr())
      ensures State() == Node.ProposeIfLeader(cfg, Node.ProcessQC(old(State()), qc), None, made)
    {
      ProcessQC(qc);
      ProposeIfLeader(None, made);
    }

    method HandleTimeout(timeout: Timeout, made: Option<PayloadDigest>)
      requires Valid()
      modifies Repr()
      ensures Valid() && fresh(Repr() - old(Repr()))
      ensures State() == Node.HandleTimeout(cfg, old(State()), timeout, made)
    {
      if timeout.round < round || cfg.committee.Stake(timeout.author) == 0 || !timeout.WellSigned() {
        return;
      }
      var r := CollectTimeout(timeout);
      if r.Success? && r.value.Some? {
        ProposeOnTC(r.value.value, made);
      }
    }

    method ProposeOnTC(tc: TC, made: Option<PayloadDigest>)
      requires Valid()
      modifies this, aggregator, mempool
      ensures Valid() && Repr() <= old(Repr())
      ensures State() == Node.ProposeIfLeader(cfg, Node.AdvanceRound(old(State()), tc.round), Some(tc), made)
    {
      AdvanceRound(tc.round);
      ProposeIfLeader(Some(tc), made);
    }

    method AdvanceRound(target: Round)
      requires Valid()
      modifies `round, aggregator
      ensures Valid() && Repr() <= old(Repr())
      ensures State() == Node.AdvanceRound(old(State()), target)
      ensures round == if target < old(round) then old(round) else target + 1
    {
      if target < round {
        return;
      }
      round := target + 1;
      aggregator.Cleanup(round);
    }

    method ProcessQC(qc: QC)
      requires Valid()
      modifies this, aggregator
      ensures Valid() && Repr() <= old(Repr())
      ensures State() == Node.ProcessQC(old(State()), qc)
    {
      AdvanceRound(qc.round);
      UpdateHighQc(qc);
    }

    method TakePayload(made: Option<PayloadDigest>) returns (payload: seq<PayloadDigest>)
      requires Valid()
      modifies mempool
      ensures Valid() && Repr() == old(Repr())
      ensures payload == Node.TakePayload(cfg, old(State()).mempool, made).1
      ensures State() == old(State()).(mempool := Node.TakePayload(cfg, old(State()).mempool, made).0)
    {
      payload := mempool.GetPayload(made);
    }

    /** The proposal is sent, and waits to be processed. */
    method Broadcast(block: Block)
      requires Valid()
      modifies `networkChannel, `suspensions
      ensures Valid()
      ensures State() == old(State()).(log := old(State()).log + [Proposed(block)],
                                       suspensions := old(State()).suspensions + [Node.OwnProposal(block)])
    {
      networkChannel := networkChannel + [Proposed(block)];
      suspensions := suspensions + [Node.OwnProposal(block)];
    }

    method GenerateProposal(tc: Option<TC>, made: Option<PayloadDigest>)
      requires Valid()
      modifies this, mempool
      ensures Valid() && Repr() == old(Repr())
      ensures State() == Node.GenerateProposal(cfg, old(State()), tc, made)
    {
      if boycottProposals {
        return;
      }
      var payload := TakePayload(made);
      Broadcast(Block(highQc, tc, name, round, payload,
                      Signed(name, BlockStatement(BlockDigest(name, round, payload, highQc.hash)))));
    }

    method GetParentBlock(block: Block) returns (parent: Option<Block>)
      ensures parent == Node.GetParent(store, block)
    {
      if block.qc.IsGenesis() {
        return Some(GENESIS_BLOCK);
      }
      return if block.qc.hash in store then Some(store[block.qc.hash]) else None;
    }

    /** The second lookup is the one that the program expects to succeed. */
    method GetAncestors(block: Block) returns (ancestors: Option<(Block, Block)>)
      requires Valid()
      ensures ancestors.Some? <==> Node.GetParent(store, block).Some?
      ensures ancestors.Some? ==>
        ancestors.value.1 == Node.GetParent(store, block).value
        && Node.GetParent(store, ancestors.value.1) == Some(ancestors.value.0)
    {
      var b1 := GetParentBlock(block);
      if b1.None? {
        return None;
      }
      var b0 := GetParentBlock(b1.value);
      assert b0.Some?;
      return Some((b0.value, b1.value));
    }

    /** The block is handed over to a synchronizer. */
    method Suspend(suspension: Node.Suspension)
      requires Valid()
      modifies `suspensions
      ensures Valid()
      ensures State() == Node.Suspend(old(State()), suspension)
    {
      suspensions := suspensions + [suspension];
    }

    method ProcessBlock(block: Block)
      requires Valid() && (block.tc.Some? ==> block.tc.value.votes != [])
      modifies this, mempool
      ensures Valid() && Repr() == old(Repr())
      ensures State() == Node.ProcessBlock(old(State()), block)
    {
      var ancestors := GetAncestors(block);
      if ancestors.None? {
        Suspend(Node.AwaitsParent(block));
        return;
      }
      ProcessWithAncestors(ancestors.value.0, ancestors.value.1, block);
    }

    method ProcessWithAncestors(b0: Block, b1: Block, block: Block)
      requires Valid() && (block.tc.Some? ==> block.tc.value.votes != []) && Node.GetParent(store, block).Some?
      modifies this, mempool
      ensures Valid() && Repr() == old(Repr())
      ensures State() == Node.ProcessWithAncestors(old(State()), b0, b1, block)
    {
      StoreAndCommit(b0, b1, block);
      VoteIfCurrent(block);
    }

    method VoteIfCurrent(block: Block)
      requires Valid() && (block.tc.Some? ==> block.tc.value.votes != [])
      modifies `lastVotedRound, `networkChannel
      ensures Valid()
      ensures State() == if block.round != old(round) then old(State()) else Node.VoteFor(old(State()), block)
    {
      if block.round != round {
        return;
      }
      var vote := MakeVote(block);
    }

    method StoreBlock(block: Block)
      requires Valid() && Node.GetParent(store, block).Some?
      modifies `store
      ensures Valid()
      ensures State() == old(State()).(blocks := old(State()).blocks[block.Digest() := block])
    {
      ClosedGrows(store, block);
      store := store[block.Digest() := block];
    }

    /** The head of a completed two-chain is committed. */
    method CommitHead(b0: Block, b1: Block, block: Block)
      requires Valid()
      modifies `commitChannel
      ensures Valid()
      ensures State() == old(State()).(commits := Node.WithCommit(old(State()).commits, b0, b1, block))
    {
      if b0.round + 1 == b1.round {
        commitChannel := commitChannel + [Node.Commit(b0, b1, block)];
      }
    }

    method CleanupMempool(payload: seq<PayloadDigest>)
      requires Valid()
      modifies mempool
      ensures Valid() && Repr() == old(Repr())
      ensures State() ==
        old(State()).(mempool := old(State()).mempool.(queue := Retain(old(State()).mempool.queue, payload)))
    {
      mempool.Cleanup(payload);
    }

    method StoreAndCommit(b0: Block, b1: Block, block: Block)
      requires Valid() && Node.GetParent(store, block).Some?
      modifies `store, `commitChannel, mempool
      ensures Valid() && Repr() == old(Repr())
      ensures State() == Node.StoreAndCommit(old(State()), b0, b1, block)
    {
      StoreBlock(block);
      CommitHead(b0, b1, block);
      CleanupMempool(b0.payload + b1.payload + block.payload);
    }

    method ProcessCertificates(block: Block)
      requires Valid()
      modifies this, aggregator
      ensures Valid() && Repr() <= old(Repr())
      ensures State() == Node.ProcessCertificates(old(State()), block)
    {
      ProcessQC(block.qc);
      if block.tc.Some? {
        AdvanceRound(block.tc.value.round);
      }
    }

    method VerifyProposal(block: Block) returns (ok: bool)
      ensures ok <==> block.author == cfg.leader(block.round) && ValidBlock(cfg.committee, block)
      ensures ok && block.tc.Some? ==> block.tc.value.votes != []
    {
      if block.author != cfg.leader(block.round) {
        return false;
      }
      var verdict := VerifyBlock(cfg.committee, block);
      if verdict.Success? {
        VerifiedTCHasVotes(cfg.committee, block);
      }
      return verdict.Success?;
    }

    /** A verified proposal is processed if its payload is there, and suspended otherwise. */
    method ProcessOrSuspend(block: Block)
      requires Valid() && (block.tc.Some? ==> block.tc.value.votes != [])
      modifies this, mempool
      ensures Valid() && Repr() == old(Repr())
      ensures State() == Node.ProcessOrSuspend(old(State()), block)
    {
      var missing := mempool.Verify(block.payload);
      if missing != {} {
        Suspend(Node.AwaitsPayload(block, missing));
        return;
      }
      ProcessBlock(block);
    }

    method HandleProposal(block: Block)
      requires Valid()
      modifies this, aggregator, mempool
      ensures Valid() && Repr() <= old(Repr())
      ensures State() == Node.HandleProposal(cfg, old(State()), block)
    {
      var ok := VerifyProposal(block);
      if ok {
        ProcessCertificates(block);
        ProcessOrSuspend(block);
      }
    }

    /** A stored block is sent to whoever asks for it. */
    method HandleSyncRequest(digest: Digest) returns (answer: Option<Block>)
      ensures answer == if digest in store then Some(store[digest]) else None
    {
      return if digest in store then Some(store[digest]) else None;
    }

    /** One turn of the main loop: the object moves as the protocol's step relation says. */
    method React(x: Node.Stimulus)
      requires Valid()
      requires x.event.LoopBack? && x.event.block.tc.Some? ==> x.event.block.tc.value.votes != []
      modifies Repr()
      ensures Valid() && fresh(Repr() - old(Repr()))
      ensures State() == Node.React(cfg, old(State()), x)
    {
      match x.event
      case Propose(b) => HandleProposal(b);
      case VoteArrives(v) => HandleVote(v, x.made);
      case TimeoutArrives(m) => HandleTimeout(m, x.made);
      case TimerFires => LocalTimeoutRound(x.made);
      case _ => ReactToOwn(x);
    }

    /** What comes from other tasks of the node; a pause stops the timer only. */
    method ReactToOwn(x: Node.Stimulus)
      requires Valid() && (x.event.LoopBack? || x.event.PayloadArrives? || x.event.SyncRequested? || x.event.Paused?)
      requires x.event.LoopBack? && x.event.block.tc.Some? ==> x.event.block.tc.value.votes != []
      modifies this, mempool
      ensures Valid() && Repr() == old(Repr())
      ensures State() == Node.React(cfg, old(State()), x)
    {
      match x.event
      case LoopBack(b) => ProcessBlock(b);
      case PayloadArrives(p, own, oversized) => HandlePayload(p, own, oversized);
      case SyncRequested(digest) => var answer := HandleSyncRequest(digest);
      case Paused =>
    }

    method HandlePayload(payload: PayloadDigest, own: bool, oversized: bool)
      requires Valid()
      modifies mempool
      ensures Valid() && Repr() == old(Repr())
      ensures State() == Node.ReceivePayload(cfg, old(State()), payload, own, oversized)
    {
      var accepted := mempool.HandlePayload(payload, own, oversized);
    }
  }

  lemma VerifiedTCHasVotes(c: Committee, block: Block)
    requires ValidBlock(c, block)
    ensures block.tc.Some? ==> block.tc.value.votes != []
  {
    if block.tc.Some? {
      QuorumIsNotEmpty(c, block.tc.value.Names());
    }
  }
}

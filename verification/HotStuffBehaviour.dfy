/**
 What a node does with every event, all of it: which round it enters, what it stores, commits, signs and
 hands over, and what stays as it was. Nothing is said here through the handlers' own parts.
 */
module HotStuffBehaviour {
  import opened Wrappers
  import opened Committees
  import opened Messages
  import opened Mempools
  import opened Aggregators
  import opened HotStuffSafety
  import opened HotStuffNode

  // Rounds

  /** The later of the round and the one after `r`. */
  function Beyond(round: Round, r: Round): Round {
    if r < round then round else r + 1
  }

  /** The highest round that the block's certificates lead to. */
  function RoundAfter(round: Round, b: Block): Round {
    var withQC := Beyond(round, b.qc.round);
    if b.tc.Some? then Beyond(withQC, b.tc.value.round) else withQC
  }

  function HigherQC(known: QC, qc: QC): QC {
    if qc.round > known.round then qc else known
  }

  /** The node has entered the round, and collects nothing for earlier ones. */
  ghost function Entered(s: NodeState, round: Round, highQc: QC): NodeState {
    s.(round := round, highQc := highQc,
       aggregator := if round > s.round then CleanedUp(s.aggregator, round) else s.aggregator)
  }

  lemma CleaningTwice(a: AggregatorState, r: Round, r': Round)
    requires r <= r'
    ensures CleanedUp(CleanedUp(a, r), r') == CleanedUp(a, r')
  {
    var twice, once := CleanedUp(CleanedUp(a, r), r'), CleanedUp(a, r');
    assert twice.qcs == once.qcs && twice.tcs == once.tcs;
  }

  lemma CertificatesLead(s: NodeState, b: Block)
    ensures ProcessCertificates(s, b) == Entered(s, RoundAfter(s.round, b), HigherQC(s.highQc, b.qc))
  {
    assert ProcessQC(s, b.qc) == Entered(s, Beyond(s.round, b.qc.round), HigherQC(s.highQc, b.qc));
    if s.round <= b.qc.round && b.tc.Some? && b.qc.round + 1 <= b.tc.value.round {
      CleaningTwice(s.aggregator, b.qc.round + 1, b.tc.value.round + 1);
    }
  }

  // Blocks

  /** The block on which this one stands: the genesis block, or the one stored under the certificate's digest. */
  predicate IsParent(blocks: map<Digest, Block>, b: Block, parent: Block) {
    if b.qc.hash == Zero && b.qc.round == 0 then parent == GENESIS_BLOCK
    else b.qc.hash in blocks && blocks[b.qc.hash] == parent
  }

  predicate HasNoParent(blocks: map<Digest, Block>, b: Block) {
    !(b.qc.hash == Zero && b.qc.round == 0) && b.qc.hash !in blocks
  }

  /** The block is stored, its two-chain committed, its payload not queued any more, and it is voted on if it may be. */
  predicate Processed(s: NodeState, t: NodeState, b0: Block, b1: Block, b: Block) {
    && t.blocks == s.blocks[b.Digest() := b]
    && t.commits == (if b0.round + 1 == b1.round then s.commits + [Commit(b0, b1, b)] else s.commits)
    && t.mempool == Mempool(Retain(s.mempool.queue, b0.payload + b1.payload + b.payload), s.mempool.stored)
    && (if b.round == s.round && b.round > s.lastVoted && SafetyRule2(b)
        then t.log == s.log + [Voted(b)] && t.lastVoted == b.round
        else t.log == s.log && t.lastVoted == s.lastVoted)
    && t == s.(blocks := t.blocks, commits := t.commits, mempool := t.mempool, log := t.log, lastVoted := t.lastVoted)
  }

  lemma ProcessedWithAncestors(s: NodeState, b0: Block, b1: Block, b: Block)
    requires IsParent(s.blocks, b, b1) && IsParent(s.blocks, b1, b0)
    ensures Processed(s, ProcessBlock(s, b), b0, b1, b)
  {
  }

  /** A block that comes back is stored, committed and voted on, or waits for its parent and does nothing else. */
  lemma LoopBackOutcome(cfg: Config, s: NodeState, b: Block, made: Option<PayloadDigest>, b0: Block, b1: Block)
    ensures var t := React(cfg, s, Stimulus(LoopBack(b), made));
      && (IsParent(s.blocks, b, b1) && IsParent(s.blocks, b1, b0) ==> Processed(s, t, b0, b1, b))
      && (HasNoParent(s.blocks, b) ==> t == s.(suspensions := s.suspensions + [AwaitsParent(b)]))
  {
    if IsParent(s.blocks, b, b1) && IsParent(s.blocks, b1, b0) {
      ProcessedWithAncestors(s, b0, b1, b);
    }
  }


  /**
   A proposal that does not verify is ignored. Otherwise its certificates are followed; then it is stored,
   committed and voted on, or waits for its payload or its parent.
   */
  lemma ProposalOutcome(cfg: Config, s: NodeState, b: Block, made: Option<PayloadDigest>, b0: Block, b1: Block)
    ensures var t := React(cfg, s, Stimulus(Propose(b), made));
      var s1 := Entered(s, RoundAfter(s.round, b), HigherQC(s.highQc, b.qc));
      var missing := set p | p in b.payload && p !in s.mempool.stored;
      if b.author != cfg.leader(b.round) || !ValidBlock(cfg.committee, b) then t == s
      else if missing != {} then t == s1.(suspensions := s.suspensions + [AwaitsPayload(b, missing)])
      else
        && (IsParent(s.blocks, b, b1) && IsParent(s.blocks, b1, b0) ==> Processed(s1, t, b0, b1, b))
        && (HasNoParent(s.blocks, b) ==> t == s1.(suspensions := s.suspensions + [AwaitsParent(b)]))
  {
    if b.author == cfg.leader(b.round) && ValidBlock(cfg.committee, b) {
      var s1 := Entered(s, RoundAfter(s.round, b), HigherQC(s.highQc, b.qc));
      CertificatesLead(s, b);
      PayloadOutcome(s1, b);
      if IsParent(s.blocks, b, b1) && IsParent(s.blocks, b1, b0) {
        ProcessedWithAncestors(s1, b0, b1, b);
      }
    }
  }

  lemma PayloadOutcome(s: NodeState, b: Block)
    ensures var missing := set p | p in b.payload && p !in s.mempool.stored;
      ProcessOrSuspend(s, b) ==
      if missing != {} then s.(suspensions := s.suspensions + [AwaitsPayload(b, missing)]) else ProcessBlock(s, b)
  {
    var missing := set p | p in b.payload && p !in s.mempool.stored;
    assert forall p :: p in b.payload && p !in s.mempool.stored ==> p in missing;
    assert missing != {} ==> exists p :: p in missing;
  }

  // Proposing

  /** A leader that does not boycott signs one block on its highest certificate; everybody else does nothing. */
  predicate ProposedIfLeading(cfg: Config, s: NodeState, t: NodeState, tc: Option<TC>, made: Option<PayloadDigest>) {
    if cfg.leader(s.round) == s.name && !s.boycott then
      var (mempool, payload) := GetPayload(cfg.maxPayloads, cfg.queueCapacity, s.mempool, made);
      var b := Block(s.highQc, tc, s.name, s.round, payload,
                     Signed(s.name, BlockStatement(BlockDigest(s.name, s.round, payload, s.highQc.hash))));
      t == s.(mempool := mempool, log := s.log + [Proposed(b)], suspensions := s.suspensions + [OwnProposal(b)])
    else t == s
  }

  lemma LeaderProposes(cfg: Config, s: NodeState, tc: Option<TC>, made: Option<PayloadDigest>)
    ensures ProposedIfLeading(cfg, s, ProposeIfLeader(cfg, s, tc, made), tc, made)
  {
  }

  lemma QCLeads(s: NodeState, qc: QC)
    requires s.round <= qc.round
    ensures ProcessQC(s, qc) == Entered(s, qc.round + 1, HigherQC(s.highQc, qc))
  {
  }

  lemma CertificateFollowed(cfg: Config, s: NodeState, qc: QC, made: Option<PayloadDigest>)
    requires s.round <= qc.round
    ensures ProposedIfLeading(cfg, Entered(s, qc.round + 1, HigherQC(s.highQc, qc)),
                              ProposeIfLeader(cfg, ProcessQC(s, qc), None, made), None, made)
  {
    QCLeads(s, qc);
    LeaderProposes(cfg, ProcessQC(s, qc), None, made);
  }

  lemma TimeoutCertificateFollowed(cfg: Config, s: NodeState, tc: TC, made: Option<PayloadDigest>)
    requires s.round <= tc.round
    ensures ProposedIfLeading(cfg, Entered(s, tc.round + 1, s.highQc),
                              ProposeIfLeader(cfg, AdvanceRound(s, tc.round), Some(tc), made), Some(tc), made)
  {
    LeaderProposes(cfg, AdvanceRound(s, tc.round), Some(tc), made);
  }

  /** What a vote does that is not stale or ill-formed: a certificate that it completes is followed at once. */
  ghost predicate VoteCollected(cfg: Config, s: NodeState, t: NodeState, v: Vote, made: Option<PayloadDigest>) {
    var (a, r) := WithVote(cfg.committee, s.aggregator, v);
    if r.Success? && r.value.Some? then
      var qc := r.value.value;
      ProposedIfLeading(cfg, Entered(s.(aggregator := a), v.round + 1, HigherQC(s.highQc, qc)), t, None, made)
    else t == s.(aggregator := a)
  }

  lemma CertificateNamesVote(c: Committee, a: AggregatorState, v: Vote)
    ensures var r := WithVote(c, a, v).1;
      r.Success? && r.value.Some? ==> r.value.value.hash == v.hash && r.value.value.round == v.round
  {
  }

  lemma ValidVoteCollected(cfg: Config, s: NodeState, v: Vote, made: Option<PayloadDigest>)
    requires v.round >= s.round && ValidVote(cfg.committee, v)
    ensures VoteCollected(cfg, s, HandleVote(cfg, s, v, made), v, made)
  {
    var (a, r) := WithVote(cfg.committee, s.aggregator, v);
    CertificateNamesVote(cfg.committee, s.aggregator, v);
    if r.Success? && r.value.Some? {
      CertificateFollowed(cfg, s.(aggregator := a), r.value.value, made);
    }
  }

  lemma VoteOutcome(cfg: Config, s: NodeState, v: Vote, made: Option<PayloadDigest>)
    ensures var t := React(cfg, s, Stimulus(VoteArrives(v), made));
      if v.round < s.round || cfg.committee.Stake(v.author) == 0
         || v.signature != Signed(v.author, VoteStatement(v.hash, v.round))
      then t == s else VoteCollected(cfg, s, t, v, made)
  {
    if v.round >= s.round && ValidVote(cfg.committee, v) {
      ValidVoteCollected(cfg, s, v, made);
    }
  }

  /** What a time-out does that is not stale or ill-formed. */
  ghost predicate Collected(cfg: Config, s: NodeState, t: NodeState, m: Timeout, made: Option<PayloadDigest>) {
    var (a, r) := WithTimeout(cfg.committee, s.aggregator, m);
    if r.Success? && r.value.Some?
    then ProposedIfLeading(cfg, Entered(s.(aggregator := a), m.round + 1, s.highQc), t, Some(r.value.value), made)
    else t == s.(aggregator := a)
  }

  lemma CertificateNamesTimeout(c: Committee, a: AggregatorState, m: Timeout)
    ensures var r := WithTimeout(c, a, m).1; r.Success? && r.value.Some? ==> r.value.value.round == m.round
  {
  }

  lemma ValidTimeoutCollected(cfg: Config, s: NodeState, m: Timeout, made: Option<PayloadDigest>)
    requires m.round >= s.round && ValidTimeout(cfg.committee, m)
    ensures Collected(cfg, s, HandleTimeout(cfg, s, m, made), m, made)
  {
    var (a, r) := WithTimeout(cfg.committee, s.aggregator, m);
    CertificateNamesTimeout(cfg.committee, s.aggregator, m);
    if r.Success? && r.value.Some? {
      assert HandleTimeout(cfg, s, m, made) ==
        ProposeIfLeader(cfg, AdvanceRound(s.(aggregator := a), m.round), Some(r.value.value), made);
      TimeoutCertificateFollowed(cfg, s.(aggregator := a), r.value.value, made);
    }
  }

  lemma TimeoutOutcome(cfg: Config, s: NodeState, m: Timeout, made: Option<PayloadDigest>)
    ensures var t := React(cfg, s, Stimulus(TimeoutArrives(m), made));
      if m.round < s.round || cfg.committee.Stake(m.author) == 0
         || m.signature != Signed(m.author, TimeoutStatement(m.round, m.highQcRound))
      then t == s else Collected(cfg, s, t, m, made)
  {
    if m.round >= s.round && ValidTimeout(cfg.committee, m) {
      ValidTimeoutCollected(cfg, s, m, made);
    }
  }

  /** The node gives up voting in its round, reports its highest certificate, and collects its own time-out. */
  lemma TimerOutcome(cfg: Config, s: NodeState, made: Option<PayloadDigest>)
    ensures var t := React(cfg, s, Stimulus(TimerFires, made));
      var s1 := s.(lastVoted := if s.lastVoted < s.round then s.round else s.lastVoted,
                   log := s.log + [TimedOut(s.round, s.highQc.round)]);
      var own := Timeout(s.highQc.round, s.round, s.name, Signed(s.name, TimeoutStatement(s.round, s.highQc.round)));
      if cfg.committee.Stake(s.name) == 0 then t == s1 else Collected(cfg, s1, t, own, made)
  {
    TimeoutOutcome(cfg, SignTimeout(s), NewTimeout(s), made);
  }

  lemma PayloadArrivalOutcome(cfg: Config, s: NodeState, p: PayloadDigest, own: bool, oversized: bool,
                              made: Option<PayloadDigest>)
    ensures React(cfg, s, Stimulus(PayloadArrives(p, own, oversized), made)) ==
      if (own && |s.mempool.queue| >= cfg.queueCapacity) || (!own && oversized) then s
      else s.(mempool := Mempool(s.mempool.queue + [p], s.mempool.stored + {p}))
  {
  }

  lemma BootOutcome(cfg: Config, name: PublicKey, boycott: bool, made: Option<PayloadDigest>)
    ensures var start := NodeState(name, boycott, 1, 0, QC(Zero, 0, []), AggregatorState(map[], map[]),
                                   map[], [], Mempool([], {}), [], []);
      ProposedIfLeading(cfg, start, Boot(cfg, name, boycott, made), None, made)
  {
  }

  /** The second safety rule in the words of the program, for a block that was verified. */
  lemma RuleByLargestRound(c: Committee, b: Block)
    requires ValidBlock(c, b)
    ensures b.tc.Some? ==> b.tc.value.votes != []
    ensures SafetyRule2(b) <==>
      b.qc.round + 1 == b.round
      || (b.tc.Some? && b.tc.value.round + 1 == b.round && b.qc.round >= Max(b.tc.value.HighQcRounds()))
  {
    if b.tc.Some? {
      QuorumIsNotEmpty(c, b.tc.value.Names());
      SkippingIsSafe(b.tc.value, b.qc.round);
    }
  }
}

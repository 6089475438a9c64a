/**
 What one HotStuff node does with each event, as functions on its state.

 A node's own vote comes back to it as a later event, and its own proposal waits among the suspended
 blocks until a later event; the program makes nested calls here. What the node signs is recorded in `log`, what it
 sends through the commit channel in `commits`.
 */
module HotStuffNode {
  import opened Wrappers
  import opened Committees
  import opened Messages
  import opened Mempools
  import opened Aggregators
  import opened HotStuffSafety

  /** `maxPayloads` is the payload size limit divided by the size of a digest. */
  datatype Config = Config(committee: Committee, leader: Round -> PublicKey, maxPayloads: nat, queueCapacity: nat)

  /** A block sent through the commit channel, with the two blocks on top of it. */
  datatype Commit = Commit(b0: Block, b1: Block, block: Block)

  /** A block that the core hands over, to come back to it later: to one of the synchronizers or to itself. */
  datatype Suspension =
    | AwaitsParent(block: Block)
    | AwaitsPayload(block: Block, missing: set<PayloadDigest>)
    | OwnProposal(block: Block)

  datatype NodeState = NodeState(
    name: PublicKey,
    boycott: bool,
    round: Round,
    lastVoted: Round,
    highQc: QC,
    aggregator: AggregatorState,
    blocks: map<Digest, Block>,
    suspensions: seq<Suspension>,
    mempool: Mempool,
    log: seq<Act>,
    commits: seq<Commit>)

  /** What never goes backwards in a node's life. */
  ghost predicate Later(s: NodeState, t: NodeState) {
    && t.name == s.name && t.boycott == s.boycott
    && s.round <= t.round && s.lastVoted <= t.lastVoted && s.highQc.round <= t.highQc.round
    && s.blocks.Keys <= t.blocks.Keys && s.suspensions <= t.suspensions && s.mempool.stored <= t.mempool.stored
    && s.log <= t.log && s.commits <= t.commits
  }

  predicate SameStore(s: NodeState, t: NodeState) {
    t.blocks == s.blocks && t.commits == s.commits
  }

  // Mempool

  /** What the node takes from its mempool for a proposal. */
  function TakePayload(cfg: Config, m: Mempool, made: Option<PayloadDigest>): (Mempool, seq<PayloadDigest>) {
    GetPayload(cfg.maxPayloads, cfg.queueCapacity, m, made)
  }

  function ReceivePayload(cfg: Config, s: NodeState, p: PayloadDigest, own: bool, oversized: bool): NodeState {
    s.(mempool := Receive(cfg.queueCapacity, s.mempool, p, own, oversized))
  }

  // Pacemaker

  ghost function AdvanceRound(s: NodeState, round: Round): (t: NodeState)
    ensures SameStore(s, t)
    ensures Later(s, t) && t.round == if round < s.round then s.round else round + 1
  {
    if round < s.round then s
    else s.(round := round + 1, aggregator := CleanedUp(s.aggregator, round + 1))
  }

  function UpdateHighQc(s: NodeState, qc: QC): NodeState {
    if qc.round > s.highQc.round then s.(highQc := qc) else s
  }

  ghost function ProcessQC(s: NodeState, qc: QC): (t: NodeState)
    ensures SameStore(s, t)
    ensures Later(s, t) && t.round > qc.round && t.highQc.round >= qc.round
  {
    UpdateHighQc(AdvanceRound(s, qc.round), qc)
  }

  function NewBlock(s: NodeState, tc: Option<TC>, payload: seq<PayloadDigest>): Block {
    Block(s.highQc, tc, s.name, s.round, payload,
          Signed(s.name, BlockStatement(BlockDigest(s.name, s.round, payload, s.highQc.hash))))
  }

  ghost function GenerateProposal(cfg: Config, s: NodeState, tc: Option<TC>, made: Option<PayloadDigest>)
    : (t: NodeState)
    ensures SameStore(s, t)
    ensures Later(s, t) && t.round == s.round && t.highQc == s.highQc
  {
    if s.boycott then s
    else
      var (mempool, payload) := TakePayload(cfg, s.mempool, made);
      var b := NewBlock(s, tc, payload);
      s.(mempool := mempool, log := s.log + [Proposed(b)], suspensions := s.suspensions + [OwnProposal(b)])
  }

  ghost function ProposeIfLeader(cfg: Config, s: NodeState, tc: Option<TC>, made: Option<PayloadDigest>): (t: NodeState)
    ensures SameStore(s, t)
    ensures Later(s, t)
  {
    if s.name == cfg.leader(s.round) then GenerateProposal(cfg, s, tc, made) else s
  }

  ghost function HandleVote(cfg: Config, s: NodeState, v: Vote, made: Option<PayloadDigest>): (t: NodeState)
    ensures SameStore(s, t)
    ensures Later(s, t)
  {
    if v.round < s.round || !ValidVote(cfg.committee, v) then s
    else
      var (aggregator, r) := WithVote(cfg.committee, s.aggregator, v);
      var s1 := s.(aggregator := aggregator);
      if r.Success? && r.value.Some? then
        ProposeIfLeader(cfg, ProcessQC(s1, r.value.value), None, made)
      else s1
  }

  ghost function HandleTimeout(cfg: Config, s: NodeState, m: Timeout, made: Option<PayloadDigest>): (t: NodeState)
    ensures SameStore(s, t)
    ensures Later(s, t)
  {
    if m.round < s.round || !ValidTimeout(cfg.committee, m) then s
    else
      var (aggregator, r) := WithTimeout(cfg.committee, s.aggregator, m);
      var s1 := s.(aggregator := aggregator);
      if r.Success? && r.value.Some? then
        ProposeIfLeader(cfg, AdvanceRound(s1, r.value.value.round), r.value, made)
      else s1
  }

  function SignTimeout(s: NodeState): NodeState {
    s.(lastVoted := if s.lastVoted < s.round then s.round else s.lastVoted,
       log := s.log + [TimedOut(s.round, s.highQc.round)])
  }

  function NewTimeout(s: NodeState): Timeout {
    Timeout(s.highQc.round, s.round, s.name, Signed(s.name, TimeoutStatement(s.round, s.highQc.round)))
  }

  ghost function LocalTimeoutRound(cfg: Config, s: NodeState, made: Option<PayloadDigest>): (t: NodeState)
    ensures SameStore(s, t)
    ensures Later(s, t)
  {
    HandleTimeout(cfg, SignTimeout(s), NewTimeout(s), made)
  }

  // Proposals

  function Suspend(s: NodeState, p: Suspension): NodeState {
    s.(suspensions := s.suspensions + [p])
  }

  predicate IsSuspended(s: NodeState, b: Block) {
    exists p :: p in s.suspensions && p.block == b
  }

  predicate CanVote(s: NodeState, b: Block) {
    b.round > s.lastVoted && SafetyRule2(b)
  }

  function SignVote(s: NodeState, b: Block): NodeState {
    s.(lastVoted := if s.lastVoted < b.round then b.round else s.lastVoted, log := s.log + [Voted(b)])
  }

  function VoteFor(s: NodeState, b: Block): (t: NodeState)
    ensures Later(s, t)
  {
    if CanVote(s, b) then SignVote(s, b) else s
  }

  function GetParent(blocks: map<Digest, Block>, b: Block): Option<Block> {
    if b.qc.IsGenesis() then Some(GENESIS_BLOCK)
    else if b.qc.hash in blocks then Some(blocks[b.qc.hash])
    else None
  }

  /** The lower ancestor is committed if the two ancestors are of consecutive rounds. */
  function WithCommit(commits: seq<Commit>, b0: Block, b1: Block, b: Block): seq<Commit> {
    if b0.round + 1 == b1.round then commits + [Commit(b0, b1, b)] else commits
  }

  /** The node stores the block and sends the head of a completed two-chain through the commit channel. */
  function StoreAndCommit(s: NodeState, b0: Block, b1: Block, b: Block): NodeState {
    s.(blocks := s.blocks[b.Digest() := b],
       commits := WithCommit(s.commits, b0, b1, b),
       mempool := s.mempool.(queue := Retain(s.mempool.queue, b0.payload + b1.payload + b.payload)))
  }

  function ProcessWithAncestors(s: NodeState, b0: Block, b1: Block, b: Block): (t: NodeState)
    ensures Later(s, t)
  {
    var s1 := StoreAndCommit(s, b0, b1, b);
    if b.round != s1.round then s1 else VoteFor(s1, b)
  }

  function ProcessBlock(s: NodeState, b: Block): (t: NodeState)
    ensures Later(s, t)
  {
    match GetParent(s.blocks, b)
    case None => Suspend(s, AwaitsParent(b))
    case Some(b1) =>
      match GetParent(s.blocks, b1)
      case None => s // the program stops here; StoreOk excludes it
      case Some(b0) => ProcessWithAncestors(s, b0, b1, b)
  }

  predicate HasPayload(s: NodeState, b: Block) {
    forall p :: p in b.payload ==> p in s.mempool.stored
  }

  /** The rounds that a proposal's certificates lead the node to. */
  ghost function ProcessCertificates(s: NodeState, b: Block): (t: NodeState)
    ensures SameStore(s, t)
    ensures Later(s, t) && t.highQc.round >= b.qc.round
  {
    var s1 := ProcessQC(s, b.qc);
    if b.tc.Some? then AdvanceRound(s1, b.tc.value.round) else s1
  }

  function ProcessOrSuspend(s: NodeState, b: Block): (t: NodeState)
    ensures Later(s, t)
  {
    if !HasPayload(s, b) then Suspend(s, AwaitsPayload(b, Missing(s.mempool, b.payload))) else ProcessBlock(s, b)
  }

  ghost function HandleProposal(cfg: Config, s: NodeState, b: Block): (t: NodeState)
    ensures Later(s, t)
  {
    if b.author != cfg.leader(b.round) || !ValidBlock(cfg.committee, b) then s
    else
      ProcessOrSuspend(ProcessCertificates(s, b), b)
  }

  function Start(name: PublicKey, boycott: bool): NodeState {
    NodeState(name, boycott, 1, 0, GENESIS_QC, AggregatorState(map[], map[]), map[], [], Mempool([], {}), [], [])
  }

  /** The state in which a node enters its loop: the leader of the first round proposes at once. */
  ghost function Boot(cfg: Config, name: PublicKey, boycott: bool, made: Option<PayloadDigest>): (t: NodeState)
    ensures t.name == name && Later(Start(name, boycott), t)
  {
    ProposeIfLeader(cfg, Start(name, boycott), None, made)
  }

  // Events

  datatype Event =
    | Propose(block: Block)
    | VoteArrives(vote: Vote)
    | TimeoutArrives(timeout: Timeout)
    | LoopBack(block: Block)
    | TimerFires
    | PayloadArrives(payload: PayloadDigest, own: bool, oversized: bool)
    | SyncRequested(digest: Digest)
    | Paused

  /** An event together with what the payload maker offers in case that the node proposes. */
  datatype Stimulus = Stimulus(event: Event, made: Option<PayloadDigest>)

  ghost function React(cfg: Config, s: NodeState, x: Stimulus): (t: NodeState)
    ensures Later(s, t)
  {
    match x.event
    case Propose(b) => HandleProposal(cfg, s, b)
    case VoteArrives(v) => HandleVote(cfg, s, v, x.made)
    case TimeoutArrives(m) => HandleTimeout(cfg, s, m, x.made)
    case LoopBack(b) => ProcessBlock(s, b)
    case TimerFires => LocalTimeoutRound(cfg, s, x.made)
    case PayloadArrives(p, own, oversized) => ReceivePayload(cfg, s, p, own, oversized)
    case SyncRequested(_) => s
    case Paused => s
  }

  /** Honest signatures in a message are not forged. */
  ghost predicate GenuineEvent(w: World, e: Event) {
    match e
    case Propose(b) => GenuineBlock(w, b)
    case VoteArrives(v) => Genuine(w, v.signature)
    case TimeoutArrives(m) => Genuine(w, m.signature)
    case _ => true
  }
}

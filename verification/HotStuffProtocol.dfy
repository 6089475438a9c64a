/**
 Runs of the HotStuff protocol: honest nodes react to messages that the adversary composes from
 everything signed so far and from signatures of the Byzantine authorities.
 */
module HotStuffProtocol {
  import opened Wrappers
  import opened Committees
  import opened Messages
  import opened Aggregators
  import opened HotStuffSafety
  import opened HotStuffNode
  import opened HotStuffInvariant

  /** The honest nodes. */
  type Nodes = map<PublicKey, NodeState>

  ghost function WorldOf(g: Nodes): World {
    map h | h in g :: g[h].log
  }

  /** Messages are genuine, and suspended blocks resume when their payload is there. */
  ghost predicate Possible(w: World, s: NodeState, e: Event) {
    GenuineEvent(w, e) && (e.LoopBack? ==> IsSuspended(s, e.block) && HasPayload(s, e.block))
  }

  ghost predicate StepBy(cfg: Config, g: Nodes, g': Nodes, h: PublicKey, x: Stimulus) {
    h in g && Possible(WorldOf(g), g[h], x.event) && g' == g[h := React(cfg, g[h], x)]
  }

  ghost predicate Step(cfg: Config, g: Nodes, g': Nodes) {
    exists h, x :: StepBy(cfg, g, g', h, x)
  }

  ghost predicate Booted(cfg: Config, h: PublicKey, s: NodeState) {
    exists boycott, made :: s == Boot(cfg, h, boycott, made)
  }

  ghost predicate Init(cfg: Config, g: Nodes) {
    HonestMajority(cfg.committee, g.Keys) && forall h :: h in g ==> Booted(cfg, h, g[h])
  }

  ghost predicate Run(cfg: Config, run: seq<Nodes>) {
    && run != []
    && Init(cfg, run[0])
    && forall i :: 0 <= i < |run| - 1 ==> Step(cfg, run[i], run[i + 1])
  }

  // The invariant

  ghost predicate Inv(cfg: Config, g: Nodes) {
    && HonestMajority(cfg.committee, g.Keys)
    && forall h :: h in g ==> g[h].name == h && NodeInv(cfg.committee, WorldOf(g), g[h])
  }

  lemma InvMakesWorldOk(cfg: Config, g: Nodes)
    requires Inv(cfg, g)
    ensures WorldOk(cfg.committee, WorldOf(g))
  {
    var w := WorldOf(g);
    assert w.Keys == g.Keys;
    forall h | h in w ensures LogOk(cfg.committee, w, w[h]) {
      assert NodeInv(cfg.committee, w, g[h]);
    }
  }

  lemma ReactKeepsInv(cfg: Config, w: World, s: NodeState, x: Stimulus)
    requires cfg.committee.Sound() && NodeInv(cfg.committee, w, s) && Possible(w, s, x.event)
    requires Recorded(w, React(cfg, s, x))
    ensures NodeInv(cfg.committee, w, React(cfg, s, x))
  {
    match x.event
    case Propose(b) => HandleProposalKeepsInv(cfg, w, s, b);
    case VoteArrives(v) => HandleVoteKeepsInv(cfg, w, s, v, x.made);
    case TimeoutArrives(m) => HandleTimeoutKeepsInv(cfg, w, s, m, x.made);
    case LoopBack(b) => ProcessBlockKeepsInv(cfg.committee, w, s, b);
    case TimerFires => LocalTimeoutRoundKeepsInv(cfg, w, s, x.made);
    case PayloadArrives(p, own, oversized) => ReceivePayloadKeepsInv(cfg, w, s, p, own, oversized);
    case SyncRequested(_) =>
    case Paused =>
  }

  lemma PossibleStays(w: World, w': World, s: NodeState, e: Event)
    requires WorldGrows(w, w') && Possible(w, s, e)
    ensures Possible(w', s, e)
  {
    forall sig | Genuine(w, sig) ensures Genuine(w', sig) {
      GenuineStays(w, w', sig);
    }
  }

  lemma StepGrowsWorld(cfg: Config, g: Nodes, g': Nodes, h: PublicKey, x: Stimulus)
    requires StepBy(cfg, g, g', h, x)
    ensures WorldGrows(WorldOf(g), WorldOf(g')) && g'.Keys == g.Keys
    ensures forall k :: k in g ==> Later(g[k], g'[k])
  {
    assert Later(g[h], React(cfg, g[h], x));
  }

  lemma StepKeepsInv(cfg: Config, g: Nodes, g': Nodes, h: PublicKey, x: Stimulus)
    requires Inv(cfg, g) && StepBy(cfg, g, g', h, x)
    ensures Inv(cfg, g')
  {
    StepGrowsWorld(cfg, g, g', h, x);
    var w, w' := WorldOf(g), WorldOf(g');
    forall k | k in g' ensures g'[k].name == k && NodeInv(cfg.committee, w', g'[k]) {
      NodeInvStays(cfg.committee, w, w', g[k]);
      if k == h {
        PossibleStays(w, w', g[h], x.event);
        ReactKeepsInv(cfg, w', g[h], x);
      }
    }
  }

  lemma AnyStepKeepsInv(cfg: Config, g: Nodes, g': Nodes)
    requires Inv(cfg, g) && Step(cfg, g, g')
    ensures Inv(cfg, g')
  {
    var h, x :| StepBy(cfg, g, g', h, x);
    StepKeepsInv(cfg, g, g', h, x);
  }

  lemma InitMakesInv(cfg: Config, g: Nodes)
    requires Init(cfg, g)
    ensures Inv(cfg, g)
  {
    forall h | h in g ensures g[h].name == h && NodeInv(cfg.committee, WorldOf(g), g[h]) {
      var boycott, made :| g[h] == Boot(cfg, h, boycott, made);
      BootKeepsInv(cfg, WorldOf(g), h, boycott, made);
    }
  }

  lemma {:induction false} RunKeepsInv(cfg: Config, run: seq<Nodes>, i: nat)
    requires Run(cfg, run) && i < |run|
    ensures Inv(cfg, run[i])
  {
    if i == 0 {
      InitMakesInv(cfg, run[0]);
    } else {
      RunKeepsInv(cfg, run, i - 1);
      assert Step(cfg, run[i - 1], run[i - 1 + 1]);
      AnyStepKeepsInv(cfg, run[i - 1], run[i]);
    }
  }

  lemma RunKeepsWorldOk(cfg: Config, run: seq<Nodes>, i: nat)
    requires Run(cfg, run) && i < |run|
    ensures Inv(cfg, run[i]) && WorldOk(cfg.committee, WorldOf(run[i]))
  {
    RunKeepsInv(cfg, run, i);
    InvMakesWorldOk(cfg, run[i]);
  }

  /** Rounds, votes, certificates, stored blocks, signatures and commits of a node never go back. */
  lemma {:induction false} RunOnlyAdvances(cfg: Config, run: seq<Nodes>, i: nat, j: nat, h: PublicKey)
    requires Run(cfg, run) && i <= j < |run| && h in run[i]
    ensures h in run[j] && Later(run[i][h], run[j][h])
    decreases j
  {
    if i < j {
      RunOnlyAdvances(cfg, run, i, j - 1, h);
      assert Step(cfg, run[j - 1], run[j - 1 + 1]);
      var k, x :| StepBy(cfg, run[j - 1], run[j], k, x);
      StepGrowsWorld(cfg, run[j - 1], run[j], k, x);
    }
  }

  /** Not all stake is Byzantine, so there is an honest node, and a badly signed vote leaves it as it is. */
  lemma IdleStep(cfg: Config, g: Nodes)
    requires HonestMajority(cfg.committee, g.Keys)
    ensures Step(cfg, g, g)
  {
    assert cfg.committee.authorities.Keys - {} == cfg.committee.authorities.Keys;
    assert g.Keys != {};
    var h :| h in g;
    var x := Stimulus(VoteArrives(Vote(Zero, 0, h, Unsigned)), None);
    assert React(cfg, g[h], x) == g[h];
    assert StepBy(cfg, g, g, h, x);
  }

  // Main results

  /** A new vote is on a block of the round in which the node is after the step. */
  lemma NewVoteIsOfItsRound(cfg: Config, s: NodeState, x: Stimulus, b: Block)
    requires Voted(b) in React(cfg, s, x).log && Voted(b) !in s.log
    ensures b.round == React(cfg, s, x).round
  {
    match x.event
    case Propose(p) => VotesOnProposal(cfg, s, p, b);
    case LoopBack(p) => VotesWhenProcessing(s, p, b);
    case VoteArrives(v) => NoVoteOnVote(cfg, s, v, x.made, b);
    case TimeoutArrives(m) => NoVoteOnTimeout(cfg, s, m, x.made, b);
    case TimerFires => NoVoteOnTimeout(cfg, SignTimeout(s), NewTimeout(s), x.made, b);
    case _ =>
  }

  lemma VotesOnProposal(cfg: Config, s: NodeState, p: Block, b: Block)
    requires Voted(b) !in s.log
    ensures Voted(b) in HandleProposal(cfg, s, p).log ==> b.round == HandleProposal(cfg, s, p).round
  {
    VotesWhenProcessing(ProcessCertificates(s, p), p, b);
  }

  lemma NoVoteOnVote(cfg: Config, s: NodeState, v: Vote, made: Option<PayloadDigest>, b: Block)
    requires Voted(b) !in s.log
    ensures Voted(b) !in HandleVote(cfg, s, v, made).log
  {
  }

  lemma NoVoteOnTimeout(cfg: Config, s: NodeState, m: Timeout, made: Option<PayloadDigest>, b: Block)
    requires Voted(b) !in s.log
    ensures Voted(b) !in HandleTimeout(cfg, s, m, made).log
  {
  }

  lemma VotesWhenProcessing(s: NodeState, p: Block, b: Block)
    requires Voted(b) !in s.log
    ensures Voted(b) in ProcessBlock(s, p).log ==> b.round == ProcessBlock(s, p).round
  {
  }

  /**
   The safety module's invariant in every reachable state. A vote that is cast in the step to this
   state is for its round, above every certificate that the node knew before or knows now.
   */
  lemma SafetyModule(cfg: Config, run: seq<Nodes>, i: nat, h: PublicKey)
    requires Run(cfg, run) && i < |run| && h in run[i]
    ensures var s := run[i][h];
      && s.highQc.round < s.round && s.lastVoted <= s.round
      && Disciplined(s.log)
      && forall b :: Voted(b) in s.log ==>
           b.qc.round <= s.highQc.round && b.qc.round < b.round <= s.lastVoted && SafetyRule2(b)
    ensures i > 0 ==> h in run[i - 1] && forall b :: Voted(b) in run[i][h].log && Voted(b) !in run[i - 1][h].log ==>
      run[i - 1][h].highQc.round <= run[i][h].highQc.round < b.round == run[i][h].round
  {
    RunKeepsInv(cfg, run, i);
    var s := run[i][h];
    forall b | Voted(b) in s.log
      ensures b.qc.round <= s.highQc.round && b.qc.round < b.round <= s.lastVoted && SafetyRule2(b)
    {
      assert Within(Voted(b), s.round, s.lastVoted, s.highQc.round);
      assert LogOk(cfg.committee, WorldOf(run[i]), s.log);
    }
    if i > 0 {
      NewVotesAreCurrent(cfg, run, i, h);
    }
  }

  lemma NewVotesAreCurrent(cfg: Config, run: seq<Nodes>, i: nat, h: PublicKey)
    requires Run(cfg, run) && 0 < i < |run| && h in run[i]
    ensures h in run[i - 1] && run[i - 1][h].highQc.round <= run[i][h].highQc.round
    ensures forall b :: Voted(b) in run[i][h].log && Voted(b) !in run[i - 1][h].log ==> b.round == run[i][h].round
  {
    assert Step(cfg, run[i - 1], run[i - 1 + 1]);
    var k, x :| StepBy(cfg, run[i - 1], run[i], k, x);
    StepGrowsWorld(cfg, run[i - 1], run[i], k, x);
    forall b | Voted(b) in run[i][h].log && Voted(b) !in run[i - 1][h].log ensures b.round == run[i][h].round {
      NewVoteIsOfItsRound(cfg, run[i - 1][h], x, b);
    }
  }

  /** The evidence for a commit is a completed two-chain on the committed block. */
  lemma CommitIsTwoChain(c: Committee, w: World, blocks: map<Digest, Block>, cm: Commit)
    requires WorldOk(c, w) && CommitOk(c, w, blocks, cm)
    ensures Certificate(c, w, cm.block.qc) && Commits(cm.block.qc)
    ensures cm.block.qc.hash.parent == Position(cm.b0) && RoundOf(Position(cm.b0)) == cm.b0.round
  {
    CertificateNamesItsRound(c, w, cm.block.qc);
    if !cm.b1.qc.IsGenesis() {
      CertificateNamesItsRound(c, w, cm.b1.qc);
    }
  }

  /**
   Agreement: in every run with Byzantine stake at most (N - 1) / 3, any two blocks that honest nodes
   ever send through their commit channels stand on one chain.
   */
  lemma Agreement(cfg: Config, run: seq<Nodes>, i: nat, j: nat, h: PublicKey, k: PublicKey, cm: Commit, cm': Commit)
    requires Run(cfg, run) && i < |run| && j < |run|
    requires h in run[i] && cm in run[i][h].commits
    requires k in run[j] && cm' in run[j][k].commits
    ensures Extends(Position(cm.b0), Position(cm'.b0)) || Extends(Position(cm'.b0), Position(cm.b0))
  {
    var last := |run| - 1;
    var c, w := cfg.committee, WorldOf(run[last]);
    RunKeepsWorldOk(cfg, run, last);
    RunOnlyAdvances(cfg, run, i, last, h);
    RunOnlyAdvances(cfg, run, j, last, k);
    CommitIsTwoChain(c, w, run[last][h].blocks, cm);
    CommitIsTwoChain(c, w, run[last][k].blocks, cm');
    TwoChainsAgree(c, w, cm.block.qc, cm'.block.qc);
  }

  // One certificate per round, and one proposal per leader and round

  /** The round of the certificate that a node assembles when it reacts. */
  ghost function Assembled(cfg: Config, s: NodeState, e: Event): Option<Round> {
    match e
    case VoteArrives(v) =>
      if v.round < s.round || !ValidVote(cfg.committee, v) then None
      else
        var r := WithVote(cfg.committee, s.aggregator, v).1;
        if r.Success? && r.value.Some? then Some(r.value.value.round) else None
    case TimeoutArrives(m) => AssembledTC(cfg, s, m)
    case TimerFires => AssembledTC(cfg, SignTimeout(s), NewTimeout(s))
    case _ => None
  }

  ghost function AssembledTC(cfg: Config, s: NodeState, m: Timeout): Option<Round> {
    if m.round < s.round || !ValidTimeout(cfg.committee, m) then None
    else
      var r := WithTimeout(cfg.committee, s.aggregator, m).1;
      if r.Success? && r.value.Some? then Some(r.value.value.round) else None
  }

  /** A certificate is for the node's round or a later one, and takes the node to the round after it. */
  lemma AssemblingAdvances(cfg: Config, s: NodeState, x: Stimulus)
    requires Assembled(cfg, s, x.event).Some?
    ensures s.round <= Assembled(cfg, s, x.event).value
    ensures React(cfg, s, x).round == Assembled(cfg, s, x.event).value + 1
  {
    match x.event
    case VoteArrives(v) => VoteAdvances(cfg, s, v, x.made);
    case TimeoutArrives(m) => TimeoutAdvances(cfg, s, m, x.made);
    case TimerFires => TimeoutAdvances(cfg, SignTimeout(s), NewTimeout(s), x.made);
  }

  lemma VoteAdvances(cfg: Config, s: NodeState, v: Vote, made: Option<PayloadDigest>)
    requires Assembled(cfg, s, VoteArrives(v)).Some?
    ensures s.round <= Assembled(cfg, s, VoteArrives(v)).value
    ensures HandleVote(cfg, s, v, made).round == Assembled(cfg, s, VoteArrives(v)).value + 1
  {
    var (aggregator, r) := WithVote(cfg.committee, s.aggregator, v);
    var s1 := ProcessQC(s.(aggregator := aggregator), r.value.value);
    assert Later(s1, ProposeIfLeader(cfg, s1, None, made));
  }

  lemma TimeoutAdvances(cfg: Config, s: NodeState, m: Timeout, made: Option<PayloadDigest>)
    requires AssembledTC(cfg, s, m).Some?
    ensures s.round <= AssembledTC(cfg, s, m).value
    ensures HandleTimeout(cfg, s, m, made).round == AssembledTC(cfg, s, m).value + 1
  {
    var (aggregator, r) := WithTimeout(cfg.committee, s.aggregator, m);
    var s1 := AdvanceRound(s.(aggregator := aggregator), r.value.value.round);
    assert Later(s1, ProposeIfLeader(cfg, s1, r.value, made));
  }

  /** The certificates that a node assembles, of both kinds, have strictly increasing rounds. */
  lemma CertificateRoundsIncrease(cfg: Config, run: seq<Nodes>, i: nat, j: nat, h: PublicKey, x: Stimulus, y: Stimulus)
    requires Run(cfg, run) && i < j < |run| - 1
    requires StepBy(cfg, run[i], run[i + 1], h, x) && Assembled(cfg, run[i][h], x.event).Some?
    requires StepBy(cfg, run[j], run[j + 1], h, y) && Assembled(cfg, run[j][h], y.event).Some?
    ensures Assembled(cfg, run[i][h], x.event).value < Assembled(cfg, run[j][h], y.event).value
  {
    AssemblingAdvances(cfg, run[i][h], x);
    RunOnlyAdvances(cfg, run, i + 1, j, h);
    AssemblingAdvances(cfg, run[j][h], y);
  }

  /** Two deliverable blocks that carry an honest leader's signature for one round are the same block. */
  lemma HonestLeaderDoesNotEquivocate(cfg: Config, run: seq<Nodes>, i: nat, b: Block, b': Block)
    requires Run(cfg, run) && i < |run|
    requires GenuineBlock(WorldOf(run[i]), b) && ValidBlock(cfg.committee, b)
    requires GenuineBlock(WorldOf(run[i]), b') && ValidBlock(cfg.committee, b')
    requires b.author == b'.author && b.author in run[i] && b.round == b'.round
    ensures b.Digest() == b'.Digest()
  {
    RunKeepsWorldOk(cfg, run, i);
    var w, h := WorldOf(run[i]), b.author;
    var act: Act :| act in w[h] && act.Statement() == BlockStatement(b.Digest());
    var act': Act :| act' in w[h] && act'.Statement() == BlockStatement(b'.Digest());
    assert LogOk(cfg.committee, w, w[h]);
    ProposalsOfOneRound(w[h], act.block, act'.block);
  }

  lemma ProposalsOfOneRound(log: seq<Act>, b: Block, b': Block)
    requires Disciplined(log) && Proposed(b) in log && Proposed(b') in log
    ensures b.round == b'.round ==> b == b'
  {
    var i :| 0 <= i < |log| && log[i] == Proposed(b);
    var j :| 0 <= j < |log| && log[j] == Proposed(b');
    assert i < j ==> MayFollow(log[i], log[j]);
    assert j < i ==> MayFollow(log[j], log[i]);
  }
}

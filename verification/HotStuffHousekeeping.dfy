/**
 What else a HotStuff node keeps over all runs: it signs only leaders' blocks, it collects nothing for
 past rounds, and it commits whenever its store completes a two-chain.
 */
module HotStuffHousekeeping {
  import opened Wrappers
  import opened Committees
  import opened Messages
  import opened Aggregators
  import opened HotStuffSafety
  import opened HotStuffNode
  import opened HotStuffProtocol

  predicate ByLeader(cfg: Config, b: Block) {
    b.author == cfg.leader(b.round)
  }

  predicate LeadersOnly(cfg: Config, suspensions: seq<Suspension>, log: seq<Act>) {
    && (forall p :: p in suspensions ==> ByLeader(cfg, p.block))
    && (forall act :: act in log && !act.TimedOut? ==> ByLeader(cfg, act.block))
  }

  predicate NothingStale(a: AggregatorState, round: Round) {
    && (forall k :: k in a.qcs ==> k.VoteStatement? && k.round >= round)
    && (forall k :: k in a.tcs ==> k >= round)
  }

  /** The digest's parent directly follows the grandparent's round. */
  predicate CompletesTwoChain(d: Digest) {
    d.BlockDigest? && d.parent.BlockDigest? && RoundOf(d.parent.parent) + 1 == d.parent.round
  }

  predicate StandsAt(b: Block, d: Digest) {
    if d == Zero then b == GENESIS_BLOCK else b.Digest() == d
  }

  predicate CommittedAt(commits: seq<Commit>, d: Digest) {
    exists cm :: cm in commits && StandsAt(cm.b0, d)
  }

  /** Every two-chain below a stored block has been committed. */
  predicate CommitsComplete(blocks: map<Digest, Block>, commits: seq<Commit>) {
    && (forall d :: d in blocks ==> blocks[d].Digest() == d)
    && (forall d :: d in blocks && CompletesTwoChain(d) ==> CommittedAt(commits, d.parent.parent))
  }

  predicate Tidy(cfg: Config, s: NodeState) {
    && LeadersOnly(cfg, s.suspensions, s.log)
    && NothingStale(s.aggregator, s.round)
    && CommitsComplete(s.blocks, s.commits)
  }

  lemma AdvanceRoundKeepsTidy(cfg: Config, s: NodeState, round: Round)
    requires LeadersOnly(cfg, s.suspensions, s.log) && CommitsComplete(s.blocks, s.commits)
    requires NothingStale(s.aggregator, s.round) || s.round <= round
    ensures Tidy(cfg, AdvanceRound(s, round))
  {
  }

  lemma ProposeIfLeaderKeepsTidy(cfg: Config, s: NodeState, tc: Option<TC>, made: Option<PayloadDigest>)
    requires Tidy(cfg, s)
    ensures Tidy(cfg, ProposeIfLeader(cfg, s, tc, made))
  {
  }

  lemma HandleVoteKeepsTidy(cfg: Config, s: NodeState, v: Vote, made: Option<PayloadDigest>)
    requires Tidy(cfg, s)
    ensures Tidy(cfg, HandleVote(cfg, s, v, made))
  {
    if v.round >= s.round && ValidVote(cfg.committee, v) {
      var (aggregator, r) := WithVote(cfg.committee, s.aggregator, v);
      if r.Success? && r.value.Some? {
        var s1 := s.(aggregator := aggregator);
        AdvanceRoundKeepsTidy(cfg, s1, r.value.value.round);
        ProposeIfLeaderKeepsTidy(cfg, ProcessQC(s1, r.value.value), None, made);
      }
    }
  }

  lemma HandleTimeoutKeepsTidy(cfg: Config, s: NodeState, m: Timeout, made: Option<PayloadDigest>)
    requires Tidy(cfg, s)
    ensures Tidy(cfg, HandleTimeout(cfg, s, m, made))
  {
    if m.round >= s.round && ValidTimeout(cfg.committee, m) {
      var (aggregator, r) := WithTimeout(cfg.committee, s.aggregator, m);
      if r.Success? && r.value.Some? {
        var s1 := s.(aggregator := aggregator);
        AdvanceRoundKeepsTidy(cfg, s1, r.value.value.round);
        ProposeIfLeaderKeepsTidy(cfg, AdvanceRound(s1, r.value.value.round), r.value, made);
      }
    }
  }

  /** Storing a block commits the two-chain that it completes. */
  lemma StoreAndCommitCompletes(s: NodeState, b1: Block, b0: Block, b: Block)
    requires CommitsComplete(s.blocks, s.commits)
    requires GetParent(s.blocks, b) == Some(b1) && GetParent(s.blocks, b1) == Some(b0)
    ensures var t := StoreAndCommit(s, b0, b1, b); CommitsComplete(t.blocks, t.commits)
  {
    var t, d := StoreAndCommit(s, b0, b1, b), b.Digest();
    if CompletesTwoChain(d) {
      assert b1.Digest() == d.parent && StandsAt(b0, d.parent.parent);
      assert Commit(b0, b1, b) in t.commits;
    }
    forall e | e in s.blocks && CompletesTwoChain(e) ensures CommittedAt(t.commits, e.parent.parent) {
      var cm :| cm in s.commits && StandsAt(cm.b0, e.parent.parent);
      assert cm in t.commits;
    }
  }

  lemma ProcessBlockKeepsTidy(cfg: Config, s: NodeState, b: Block)
    requires Tidy(cfg, s) && ByLeader(cfg, b)
    ensures Tidy(cfg, ProcessBlock(s, b))
  {
    if GetParent(s.blocks, b).Some? && GetParent(s.blocks, GetParent(s.blocks, b).value).Some? {
      var b1 := GetParent(s.blocks, b).value;
      StoreAndCommitCompletes(s, b1, GetParent(s.blocks, b1).value, b);
    }
  }

  lemma HandleProposalKeepsTidy(cfg: Config, s: NodeState, b: Block)
    requires Tidy(cfg, s)
    ensures Tidy(cfg, HandleProposal(cfg, s, b))
  {
    if ByLeader(cfg, b) && ValidBlock(cfg.committee, b) {
      AdvanceRoundKeepsTidy(cfg, s, b.qc.round);
      var s1 := ProcessQC(s, b.qc);
      if b.tc.Some? {
        AdvanceRoundKeepsTidy(cfg, s1, b.tc.value.round);
      }
      var s2 := ProcessCertificates(s, b);
      if HasPayload(s2, b) {
        ProcessBlockKeepsTidy(cfg, s2, b);
      }
    }
  }

  lemma ReactKeepsTidy(cfg: Config, w: World, s: NodeState, x: Stimulus)
    requires Tidy(cfg, s) && Possible(w, s, x.event)
    ensures Tidy(cfg, React(cfg, s, x))
  {
    match x.event
    case Propose(b) => HandleProposalKeepsTidy(cfg, s, b);
    case VoteArrives(v) => HandleVoteKeepsTidy(cfg, s, v, x.made);
    case TimeoutArrives(m) => HandleTimeoutKeepsTidy(cfg, s, m, x.made);
    case LoopBack(b) => ProcessBlockKeepsTidy(cfg, s, b);
    case TimerFires => HandleTimeoutKeepsTidy(cfg, SignTimeout(s), NewTimeout(s), x.made);
    case _ =>
  }

  lemma BootIsTidy(cfg: Config, h: PublicKey, s: NodeState)
    requires Booted(cfg, h, s)
    ensures Tidy(cfg, s)
  {
    var boycott, made :| s == Boot(cfg, h, boycott, made);
    var start := Start(h, boycott);
    ProposeIfLeaderKeepsTidy(cfg, start, None, made);
  }

  lemma StepKeepsTidy(cfg: Config, g: Nodes, g': Nodes, h: PublicKey)
    requires Step(cfg, g, g') && h in g && Tidy(cfg, g[h])
    ensures h in g' && Tidy(cfg, g'[h])
  {
    var k, x :| StepBy(cfg, g, g', k, x);
    if k == h {
      ReactKeepsTidy(cfg, WorldOf(g), g[h], x);
    }
  }

  /** In every reachable state honest nodes are tidy. */
  lemma {:induction false} NodesAreTidy(cfg: Config, run: seq<Nodes>, i: nat, h: PublicKey)
    requires Run(cfg, run) && i < |run| && h in run[0]
    ensures h in run[i] && Tidy(cfg, run[i][h])
  {
    if i == 0 {
      BootIsTidy(cfg, h, run[0][h]);
    } else {
      NodesAreTidy(cfg, run, i - 1, h);
      assert Step(cfg, run[i - 1], run[i - 1 + 1]);
      StepKeepsTidy(cfg, run[i - 1], run[i], h);
    }
  }
}

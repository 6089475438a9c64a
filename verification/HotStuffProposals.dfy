/**
 What honest leaders propose: blocks that verify at every node, for their own rounds, with the front of
 their queues.
 */
module HotStuffProposals {
  import opened Wrappers
  import opened Committees
  import opened Messages
  import opened HotStuffSafety
  import opened HotStuffNode
  import opened HotStuffInvariant
  import opened HotStuffProtocol
  import opened HotStuffHousekeeping
  import opened HotStuffBehaviour

  /** Own proposals are signed by the node and handed to its own core. */
  predicate OwnProposalsSigned(s: NodeState) {
    forall act :: act in s.log && act.Proposed? ==>
      && OwnProposal(act.block) in s.suspensions
      && act.block.author == s.name
      && act.block.signature == Signed(s.name, BlockStatement(act.block.Digest()))
  }

  lemma ProposingKeepsSigned(cfg: Config, s: NodeState, t: NodeState, tc: Option<TC>, made: Option<PayloadDigest>)
    requires OwnProposalsSigned(s) && ProposedIfLeading(cfg, s, t, tc, made)
    ensures OwnProposalsSigned(t)
  {
  }

  lemma VotingKeepsSigned(cfg: Config, s: NodeState, v: Vote, made: Option<PayloadDigest>)
    requires OwnProposalsSigned(s)
    ensures OwnProposalsSigned(HandleVote(cfg, s, v, made))
  {
    if v.round >= s.round && ValidVote(cfg.committee, v) {
      ValidVoteCollected(cfg, s, v, made);
    }
  }

  lemma TimingOutKeepsSigned(cfg: Config, s: NodeState, m: Timeout, made: Option<PayloadDigest>)
    requires OwnProposalsSigned(s)
    ensures OwnProposalsSigned(HandleTimeout(cfg, s, m, made))
  {
    if m.round >= s.round && ValidTimeout(cfg.committee, m) {
      ValidTimeoutCollected(cfg, s, m, made);
    }
  }

  lemma ProcessingKeepsSigned(s: NodeState, b: Block)
    requires OwnProposalsSigned(s)
    ensures OwnProposalsSigned(ProcessBlock(s, b)) && OwnProposalsSigned(ProcessOrSuspend(s, b))
  {
  }

  lemma ReactKeepsSigned(cfg: Config, s: NodeState, x: Stimulus)
    requires OwnProposalsSigned(s)
    ensures OwnProposalsSigned(React(cfg, s, x))
  {
    match x.event
    case VoteArrives(v) => VotingKeepsSigned(cfg, s, v, x.made);
    case TimeoutArrives(m) => TimingOutKeepsSigned(cfg, s, m, x.made);
    case TimerFires => TimingOutKeepsSigned(cfg, SignTimeout(s), NewTimeout(s), x.made);
    case Propose(b) =>
      CertificatesLead(s, b);
      ProcessingKeepsSigned(ProcessCertificates(s, b), b);
    case LoopBack(b) => ProcessingKeepsSigned(s, b);
    case _ =>
  }

  lemma BootSigns(cfg: Config, h: PublicKey, s: NodeState)
    requires Booted(cfg, h, s)
    ensures OwnProposalsSigned(s)
  {
    var boycott, made :| s == Boot(cfg, h, boycott, made);
    BootOutcome(cfg, h, boycott, made);
  }

  lemma StepKeepsSigned(cfg: Config, g: Nodes, g': Nodes, h: PublicKey)
    requires HotStuffProtocol.Step(cfg, g, g') && h in g && OwnProposalsSigned(g[h])
    ensures h in g' && OwnProposalsSigned(g'[h])
  {
    var k, x :| StepBy(cfg, g, g', k, x);
    if k == h {
      ReactKeepsSigned(cfg, g[h], x);
    }
  }

  lemma {:induction false} RunKeepsSigned(cfg: Config, run: seq<Nodes>, i: nat, h: PublicKey)
    requires Run(cfg, run) && i < |run| && h in run[0]
    ensures h in run[i] && OwnProposalsSigned(run[i][h])
  {
    if i == 0 {
      BootSigns(cfg, h, run[0][h]);
    } else {
      RunKeepsSigned(cfg, run, i - 1, h);
      assert HotStuffProtocol.Step(cfg, run[i - 1], run[i - 1 + 1]);
      StepKeepsSigned(cfg, run[i - 1], run[i], h);
    }
  }

  /** In every run, whatever an honest node with stake has proposed passes the checks of every node. */
  lemma HonestProposalsVerify(cfg: Config, run: seq<Nodes>, i: nat, h: PublicKey, b: Block)
    requires Run(cfg, run) && i < |run| && h in run[0] && cfg.committee.Stake(h) > 0
    requires h in run[i] && Proposed(b) in run[i][h].log
    ensures b.author == h == cfg.leader(b.round) && ValidBlock(cfg.committee, b)
    ensures b.signature == Signed(h, BlockStatement(b.Digest()))
  {
    RunKeepsSigned(cfg, run, i, h);
    RunKeepsInv(cfg, run, i);
    NodesAreTidy(cfg, run, i, h);
    var s := run[i][h];
    assert SuspendedOk(cfg.committee, WorldOf(run[i]), s.suspensions, s.highQc.round);
    assert OwnProposal(b) in s.suspensions;
  }
}

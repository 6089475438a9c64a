/**
 Consensus and delivery together: in every run the ledgers of honest nodes are prefixes of each other,
 and delivering never looks for a block or a payload that is not stored.
 */
module LedgerAgreement {
  import opened Committees
  import opened Messages
  import opened HotStuffSafety
  import opened HotStuffNode
  import opened HotStuffInvariant
  import opened HotStuffProtocol
  import opened LedgerDelivery

  function Positions(commits: seq<Commit>): seq<Digest> {
    seq(|commits|, i requires 0 <= i < |commits| => Position(commits[i].b0))
  }

  /** The ledger when the first `m` commits have been taken from the commit channel. */
  function LedgerOf(s: NodeState, m: nat): seq<PayloadDigest>
    requires m <= |s.commits|
  {
    DeliverAll(Positions(s.commits[..m])).0
  }

  lemma CommitIncreases(cfg: Config, run: seq<Nodes>, i: nat, h: PublicKey, cm: Commit)
    requires Run(cfg, run) && i < |run| && h in run[i] && cm in run[i][h].commits
    ensures Increasing(Position(cm.b0))
  {
    RunKeepsWorldOk(cfg, run, i);
    CommitIsTwoChain(cfg.committee, WorldOf(run[i]), run[i][h].blocks, cm);
    CertifiedChainIncreases(cfg.committee, WorldOf(run[i]), cm.block.qc);
  }

  lemma CommitsOnOneChain(cfg: Config, run: seq<Nodes>, i: nat, h: PublicKey, m: nat)
    requires Run(cfg, run) && i < |run| && h in run[i] && m <= |run[i][h].commits|
    ensures OnOneChain(Positions(run[i][h].commits[..m]))
  {
    var commits := run[i][h].commits[..m];
    forall p | 0 <= p < |commits| ensures Increasing(Positions(commits)[p]) {
      CommitIncreases(cfg, run, i, h, commits[p]);
    }
    forall p, q | 0 <= p < |commits| && 0 <= q < |commits|
      ensures var ds := Positions(commits); Extends(ds[p], ds[q]) || Extends(ds[q], ds[p])
    {
      Agreement(cfg, run, i, i, h, h, commits[p], commits[q]);
    }
  }

  /** A node's ledger is the payload of the chain up to its highest commit. */
  lemma LedgerOfChain(cfg: Config, run: seq<Nodes>, i: nat, h: PublicKey, m: nat) returns (cm: Commit)
    requires Run(cfg, run) && i < |run| && h in run[i] && 0 < m <= |run[i][h].commits|
    ensures cm in run[i][h].commits[..m] && LedgerOf(run[i][h], m) == PayloadOf(Position(cm.b0))
    ensures forall other :: other in run[i][h].commits[..m] ==> Extends(Position(cm.b0), Position(other.b0))
  {
    var commits := run[i][h].commits[..m];
    CommitsOnOneChain(cfg, run, i, h, m);
    LedgerIsHighestChain(Positions(commits));
    var p :| 0 <= p < |commits| && Positions(commits)[p] == Highest(Positions(commits));
    cm := commits[p];
    forall other | other in commits ensures Extends(Position(cm.b0), Position(other.b0)) {
      var q :| 0 <= q < |commits| && commits[q] == other;
      HighestExtendsAll(Positions(commits), Positions(commits)[q]);
    }
  }

  /** At any two times of a run, the ledgers of two honest nodes are prefixes of each other. */
  lemma LedgersAgree(cfg: Config, run: seq<Nodes>, i: nat, j: nat, h: PublicKey, k: PublicKey, m: nat, n: nat)
    requires Run(cfg, run) && i < |run| && j < |run| && h in run[i] && k in run[j]
    requires m <= |run[i][h].commits| && n <= |run[j][k].commits|
    ensures LedgerOf(run[i][h], m) <= LedgerOf(run[j][k], n) || LedgerOf(run[j][k], n) <= LedgerOf(run[i][h], m)
  {
    if m > 0 && n > 0 {
      var cm := LedgerOfChain(cfg, run, i, h, m);
      var cm' := LedgerOfChain(cfg, run, j, k, n);
      Agreement(cfg, run, i, j, h, k, cm, cm');
      if Extends(Position(cm.b0), Position(cm'.b0)) {
        PayloadOfAncestor(Position(cm.b0), Position(cm'.b0));
      } else {
        PayloadOfAncestor(Position(cm'.b0), Position(cm.b0));
      }
    }
  }

  // Delivery finds everything that it looks for

  /** A block that is stored under a certified digest can be walked back to the genesis block. */
  lemma {:induction false} CertifiedIsLoadable(c: Committee, w: World, blocks: map<Digest, Block>,
                                               stored: set<PayloadDigest>, qc: QC, b: Block)
    requires WorldOk(c, w) && StoreOk(c, w, blocks, stored)
    requires Certificate(c, w, qc) && qc.hash in blocks && BlockOk(c, w, b) && b.Digest() == qc.hash
    ensures Loadable(blocks, stored, b)
    decreases qc.round
  {
    CertificateNamesItsRound(c, w, qc);
    var p := ParentCertificate(c, w, qc);
    assert b.payload == blocks[qc.hash].payload && b.qc.hash == blocks[qc.hash].qc.hash;
    if !b.qc.IsGenesis() {
      CertificateNamesItsRound(c, w, b.qc);
      assert b.qc.hash in blocks;
      CertifiedIsLoadable(c, w, blocks, stored, b.qc, blocks[b.qc.hash]);
    }
  }

  /** The preconditions of delivery hold for every block that was committed, from then on. */
  lemma CommittedIsDeliverable(cfg: Config, run: seq<Nodes>, i: nat, h: PublicKey, cm: Commit)
    requires Run(cfg, run) && i < |run| && h in run[i] && cm in run[i][h].commits
    ensures Deliverable(run[i][h].blocks, run[i][h].mempool.stored, cm.b0)
  {
    RunKeepsWorldOk(cfg, run, i);
    var c, w, s := cfg.committee, WorldOf(run[i]), run[i][h];
    assert NodeInv(c, w, s) && CommitOk(c, w, s.blocks, cm);
    if !cm.b1.qc.IsGenesis() {
      CertifiedIsLoadable(c, w, s.blocks, s.mempool.stored, cm.b1.qc, cm.b0);
    }
  }
}

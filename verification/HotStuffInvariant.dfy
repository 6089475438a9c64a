/**
 The invariant of a HotStuff node. Every handler keeps it, whatever genuine message it is given.
 */
module HotStuffInvariant {
  import opened Wrappers
  import opened Committees
  import opened Messages
  import opened Mempools
  import opened Aggregators
  import opened AggregatorCorrectness
  import opened HotStuffSafety
  import opened HotStuffNode

  // The invariant, relative to a world in which the node's log is a prefix of its acts

  ghost predicate BlockOk(c: Committee, w: World, b: Block) {
    CertificatesOk(c, b) && GenuineBlock(w, b)
  }

  ghost predicate PacemakerOk(c: Committee, w: World, round: Round, lastVoted: Round, highQc: QC) {
    && highQc.round < round && lastVoted <= round
    && (highQc.IsGenesis() || ValidQC(c, highQc)) && GenuineQC(w, highQc)
  }

  predicate Within(act: Act, round: Round, lastVoted: Round, highQcRound: Round) {
    match act
    case Proposed(b) => b.round <= round
    case Voted(b) => b.round <= lastVoted && b.qc.round <= highQcRound
    case TimedOut(r, q) => r <= lastVoted && q <= highQcRound
  }

  ghost predicate HistoryOk(c: Committee, w: World, log: seq<Act>, round: Round, lastVoted: Round, highQcRound: Round) {
    && LogOk(c, w, log)
    && forall act :: act in log ==> Within(act, round, lastVoted, highQcRound)
  }

  ghost predicate SuspendedOk(c: Committee, w: World, suspensions: seq<Suspension>, highQcRound: Round) {
    forall p :: p in suspensions ==> BlockOk(c, w, p.block) && p.block.qc.round <= highQcRound
  }

  /** Every stored block has its parent stored, or the genesis certificate, and its payload. */
  ghost predicate StoreOk(c: Committee, w: World, blocks: map<Digest, Block>, stored: set<PayloadDigest>) {
    forall d :: d in blocks ==>
      && blocks[d].Digest() == d
      && BlockOk(c, w, blocks[d])
      && GetParent(blocks, blocks[d]).Some?
      && forall p :: p in blocks[d].payload ==> p in stored
  }

  ghost predicate CollectedOk(c: Committee, w: World, a: AggregatorState) {
    && AggregatorOk(c, a)
    && (forall k, v :: k in a.qcs && v in a.qcs[k].votes ==> Genuine(w, v.signature))
    && (forall k, v :: k in a.tcs && v in a.tcs[k].votes ==> Genuine(w, v.signature))
  }

  /** The two blocks above a committed one show that it may be committed. */
  ghost predicate CommitOk(c: Committee, w: World, blocks: map<Digest, Block>, cm: Commit) {
    && BlockOk(c, w, cm.block) && !cm.block.qc.IsGenesis()
    && BlockOk(c, w, cm.b1) && cm.b1.Digest() == cm.block.qc.hash
    && cm.b0.round + 1 == cm.b1.round
    && if cm.b1.qc.IsGenesis() then cm.b0 == GENESIS_BLOCK
       else BlockOk(c, w, cm.b0) && cm.b0.Digest() == cm.b1.qc.hash && cm.b1.qc.hash in blocks
  }

  ghost predicate CommitsOk(c: Committee, w: World, blocks: map<Digest, Block>, commits: seq<Commit>) {
    forall cm :: cm in commits ==> CommitOk(c, w, blocks, cm)
  }

  ghost predicate NodeInv(c: Committee, w: World, s: NodeState) {
    && PacemakerOk(c, w, s.round, s.lastVoted, s.highQc)
    && HistoryOk(c, w, s.log, s.round, s.lastVoted, s.highQc.round)
    && SuspendedOk(c, w, s.suspensions, s.highQc.round)
    && StoreOk(c, w, s.blocks, s.mempool.stored)
    && MempoolOk(s.mempool)
    && CollectedOk(c, w, s.aggregator)
    && CommitsOk(c, w, s.blocks, s.commits)
  }

  /** The world knows everything that the node has signed. */
  predicate Recorded(w: World, s: NodeState) {
    s.name in w && s.log <= w[s.name]
  }

  /** All proposals of the node are for rounds before its current one. */
  predicate NotYetProposed(s: NodeState) {
    forall act :: act in s.log && act.Proposed? ==> act.block.round < s.round
  }

  // The invariant in more advanced worlds

  ghost predicate WorldGrows(w: World, w': World) {
    w.Keys == w'.Keys && forall h :: h in w ==> w[h] <= w'[h]
  }

  lemma GenuineStays(w: World, w': World, s: Signature)
    requires WorldGrows(w, w') && Genuine(w, s)
    ensures Genuine(w', s)
  {
    if s.Signed? && s.signer in w {
      var act :| act in w[s.signer] && act.Statement() == s.statement;
      assert act in w'[s.signer];
    }
  }

  lemma BlockOkStays(c: Committee, w: World, w': World, b: Block)
    requires WorldGrows(w, w') && BlockOk(c, w, b)
    ensures BlockOk(c, w', b)
  {
    forall s | Genuine(w, s) ensures Genuine(w', s) {
      GenuineStays(w, w', s);
    }
  }

  lemma NodeInvStays(c: Committee, w: World, w': World, s: NodeState)
    requires WorldGrows(w, w') && NodeInv(c, w, s)
    ensures NodeInv(c, w', s)
  {
    forall sig | Genuine(w, sig) ensures Genuine(w', sig) {
      GenuineStays(w, w', sig);
    }
    forall b | BlockOk(c, w, b) ensures BlockOk(c, w', b) {
      BlockOkStays(c, w, w', b);
    }
    assert LogOk(c, w', s.log);
  }

  // Building blocks

  lemma HistoryGrows(c: Committee, w: World, log: seq<Act>, act: Act,
                     round: Round, lastVoted: Round, highQcRound: Round, lastVoted': Round)
    requires HistoryOk(c, w, log, round, lastVoted, highQcRound) && lastVoted <= lastVoted'
    requires Within(act, round, lastVoted', highQcRound)
    requires forall earlier :: earlier in log ==> MayFollow(earlier, act)
    requires act.Voted? ==> Justified(c, act.block) && GenuineBlock(w, act.block)
    ensures HistoryOk(c, w, log + [act], round, lastVoted', highQcRound)
  {
    var log' := log + [act];
    forall i, j | 0 <= i < j < |log'| ensures MayFollow(log'[i], log'[j]) {
      assert log'[i] == log[i] && log[i] in log;
    }
    forall a | a in log' ensures Within(a, round, lastVoted', highQcRound) {
      assert a in log || a == act;
    }
  }

  lemma HistoryLifts(c: Committee, w: World, log: seq<Act>, round: Round, lastVoted: Round, highQcRound: Round,
                     round': Round, highQcRound': Round)
    requires HistoryOk(c, w, log, round, lastVoted, highQcRound)
    requires round <= round' && highQcRound <= highQcRound'
    ensures HistoryOk(c, w, log, round', lastVoted, highQcRound')
  {
    forall act | act in log ensures Within(act, round', lastVoted, highQcRound') {
      assert Within(act, round, lastVoted, highQcRound);
    }
  }

  lemma OwnSignature(w: World, name: PublicKey, log: seq<Act>, act: Act)
    requires name in w && log <= w[name] && act in log
    ensures Genuine(w, Signed(name, act.Statement()))
  {
    assert act in w[name];
  }

  // Pacemaker

  lemma AdvanceRoundKeepsInv(c: Committee, w: World, s: NodeState, round: Round)
    requires NodeInv(c, w, s)
    ensures NodeInv(c, w, AdvanceRound(s, round))
    ensures s.round <= round && (forall act :: act in s.log && act.Proposed? ==> act.block.round <= round) ==>
      NotYetProposed(AdvanceRound(s, round))
  {
    var t := AdvanceRound(s, round);
    HistoryLifts(c, w, s.log, s.round, s.lastVoted, s.highQc.round, t.round, t.highQc.round);
  }

  lemma ProcessQCKeepsInv(c: Committee, w: World, s: NodeState, qc: QC)
    requires NodeInv(c, w, s)
    requires qc.IsGenesis() || ValidQC(c, qc)
    requires GenuineQC(w, qc)
    ensures NodeInv(c, w, ProcessQC(s, qc))
  {
    AdvanceRoundKeepsInv(c, w, s, qc.round);
    var t, u := AdvanceRound(s, qc.round), ProcessQC(s, qc);
    HistoryLifts(c, w, t.log, t.round, t.lastVoted, t.highQc.round, u.round, u.highQc.round);
  }

  /** A node that assembles a certificate of its round or a later one has not proposed in its new round. */
  lemma RoundIsFresh(c: Committee, w: World, s: NodeState, round: Round)
    requires NodeInv(c, w, s) && s.round <= round
    ensures NotYetProposed(AdvanceRound(s, round))
  {
    forall act | act in s.log && act.Proposed? ensures act.block.round <= round {
      assert Within(act, s.round, s.lastVoted, s.highQc.round);
    }
  }

  lemma StoreOkStays(c: Committee, w: World, blocks: map<Digest, Block>,
                     stored: set<PayloadDigest>, stored': set<PayloadDigest>)
    requires StoreOk(c, w, blocks, stored) && stored <= stored'
    ensures StoreOk(c, w, blocks, stored')
  {
  }

  lemma GenerateProposalKeepsInv(cfg: Config, w: World, s: NodeState, tc: Option<TC>, made: Option<PayloadDigest>)
    requires NodeInv(cfg.committee, w, s) && NotYetProposed(s)
    requires tc.Some? ==> TimeoutCertificate(cfg.committee, w, tc.value)
    requires Recorded(w, GenerateProposal(cfg, s, tc, made))
    ensures NodeInv(cfg.committee, w, GenerateProposal(cfg, s, tc, made))
  {
    if !s.boycott {
      var c, t := cfg.committee, GenerateProposal(cfg, s, tc, made);
      GetPayloadKeepsMempool(cfg.maxPayloads, cfg.queueCapacity, s.mempool, made);
      StoreOkStays(c, w, s.blocks, s.mempool.stored, t.mempool.stored);
      var b := NewBlock(s, tc, TakePayload(cfg, s.mempool, made).1);
      OwnSignature(w, s.name, t.log, Proposed(b));
      HistoryGrows(c, w, s.log, Proposed(b), s.round, s.lastVoted, s.highQc.round, s.lastVoted);
    }
  }

  lemma ProposeIfLeaderKeepsInv(cfg: Config, w: World, s: NodeState, tc: Option<TC>, made: Option<PayloadDigest>)
    requires NodeInv(cfg.committee, w, s) && NotYetProposed(s)
    requires tc.Some? ==> TimeoutCertificate(cfg.committee, w, tc.value)
    requires Recorded(w, ProposeIfLeader(cfg, s, tc, made))
    ensures NodeInv(cfg.committee, w, ProposeIfLeader(cfg, s, tc, made))
  {
    if s.name == cfg.leader(s.round) {
      GenerateProposalKeepsInv(cfg, w, s, tc, made);
    }
  }

  // Votes and timeouts

  lemma WithVoteCollected(c: Committee, w: World, a: AggregatorState, v: Vote)
    requires c.Sound() && CollectedOk(c, w, a) && ValidVote(c, v) && Genuine(w, v.signature)
    ensures CollectedOk(c, w, WithVote(c, a, v).0)
    ensures var r := WithVote(c, a, v).1; r.Success? && r.value.Some? ==>
      Certificate(c, w, r.value.value) && r.value.value.round == v.round
  {
    AddVoteKeepsAggregator(c, a, v);
    var key := VoteStatement(v.hash, v.round);
    MakerStaysGenuine(c, w, if key in a.qcs then a.qcs[key] else NO_VOTES, v);
  }

  lemma MakerStaysGenuine(c: Committee, w: World, m: QCMakerState, v: Vote)
    requires Genuine(w, v.signature) && forall u :: u in m.votes ==> Genuine(w, u.signature)
    ensures forall u :: u in AppendVote(c, m, v).0.votes ==> Genuine(w, u.signature)
    ensures var r := AppendVote(c, m, v).1; r.Success? && r.value.Some? ==> GenuineQC(w, r.value.value)
  {
  }

  lemma WithTimeoutCollected(c: Committee, w: World, a: AggregatorState, m: Timeout)
    requires c.Sound() && CollectedOk(c, w, a) && ValidTimeout(c, m) && Genuine(w, m.signature)
    ensures CollectedOk(c, w, WithTimeout(c, a, m).0)
    ensures var r := WithTimeout(c, a, m).1; r.Success? && r.value.Some? ==>
      TimeoutCertificate(c, w, r.value.value) && r.value.value.round == m.round
  {
    AddTimeoutKeepsAggregator(c, a, m);
    TimeoutMakerStaysGenuine(c, w, if m.round in a.tcs then a.tcs[m.round] else NO_TIMEOUTS, m);
  }

  lemma TimeoutMakerStaysGenuine(c: Committee, w: World, maker: TCMakerState, m: Timeout)
    requires Genuine(w, m.signature) && forall u :: u in maker.votes ==> Genuine(w, u.signature)
    ensures forall u :: u in AppendTimeout(c, maker, m).0.votes ==> Genuine(w, u.signature)
    ensures var r := AppendTimeout(c, maker, m).1; r.Success? && r.value.Some? ==> GenuineTC(w, r.value.value)
  {
  }

  lemma HandleVoteKeepsInv(cfg: Config, w: World, s: NodeState, v: Vote, made: Option<PayloadDigest>)
    requires cfg.committee.Sound() && NodeInv(cfg.committee, w, s) && Genuine(w, v.signature)
    requires Recorded(w, HandleVote(cfg, s, v, made))
    ensures NodeInv(cfg.committee, w, HandleVote(cfg, s, v, made))
  {
    var c := cfg.committee;
    if v.round >= s.round && ValidVote(c, v) {
      WithVoteCollected(c, w, s.aggregator, v);
      var (aggregator, r) := WithVote(c, s.aggregator, v);
      var s1 := s.(aggregator := aggregator);
      if r.Success? && r.value.Some? {
        var qc := r.value.value;
        RoundIsFresh(c, w, s1, qc.round);
        ProcessQCKeepsInv(c, w, s1, qc);
        ProposeIfLeaderKeepsInv(cfg, w, ProcessQC(s1, qc), None, made);
      }
    }
  }

  lemma HandleTimeoutKeepsInv(cfg: Config, w: World, s: NodeState, m: Timeout, made: Option<PayloadDigest>)
    requires cfg.committee.Sound() && NodeInv(cfg.committee, w, s) && Genuine(w, m.signature)
    requires Recorded(w, HandleTimeout(cfg, s, m, made))
    ensures NodeInv(cfg.committee, w, HandleTimeout(cfg, s, m, made))
  {
    var c := cfg.committee;
    if m.round >= s.round && ValidTimeout(c, m) {
      WithTimeoutCollected(c, w, s.aggregator, m);
      var (aggregator, r) := WithTimeout(c, s.aggregator, m);
      var s1 := s.(aggregator := aggregator);
      if r.Success? && r.value.Some? {
        var tc := r.value.value;
        RoundIsFresh(c, w, s1, tc.round);
        AdvanceRoundKeepsInv(c, w, s1, tc.round);
        ProposeIfLeaderKeepsInv(cfg, w, AdvanceRound(s1, tc.round), Some(tc), made);
      }
    }
  }

  lemma SignTimeoutKeepsInv(c: Committee, w: World, s: NodeState)
    requires NodeInv(c, w, s)
    ensures NodeInv(c, w, SignTimeout(s))
  {
    var act := TimedOut(s.round, s.highQc.round);
    forall earlier | earlier in s.log ensures MayFollow(earlier, act) {
      assert Within(earlier, s.round, s.lastVoted, s.highQc.round);
    }
    HistoryGrows(c, w, s.log, act, s.round, s.lastVoted, s.highQc.round, SignTimeout(s).lastVoted);
  }

  lemma LocalTimeoutRoundKeepsInv(cfg: Config, w: World, s: NodeState, made: Option<PayloadDigest>)
    requires cfg.committee.Sound() && NodeInv(cfg.committee, w, s)
    requires Recorded(w, LocalTimeoutRound(cfg, s, made))
    ensures NodeInv(cfg.committee, w, LocalTimeoutRound(cfg, s, made))
  {
    SignTimeoutKeepsInv(cfg.committee, w, s);
    OwnSignature(w, s.name, SignTimeout(s).log, TimedOut(s.round, s.highQc.round));
    HandleTimeoutKeepsInv(cfg, w, SignTimeout(s), NewTimeout(s), made);
  }

  // Blocks

  lemma SignVoteKeepsInv(c: Committee, w: World, s: NodeState, b: Block)
    requires NodeInv(c, w, s) && CanVote(s, b) && b.round == s.round
    requires BlockOk(c, w, b) && b.qc.round <= s.highQc.round
    ensures NodeInv(c, w, SignVote(s, b))
  {
    forall earlier | earlier in s.log ensures MayFollow(earlier, Voted(b)) {
      assert Within(earlier, s.round, s.lastVoted, s.highQc.round);
    }
    HistoryGrows(c, w, s.log, Voted(b), s.round, s.lastVoted, s.highQc.round, SignVote(s, b).lastVoted);
  }

  lemma VoteForKeepsInv(c: Committee, w: World, s: NodeState, b: Block)
    requires NodeInv(c, w, s) && b.round == s.round
    requires BlockOk(c, w, b) && b.qc.round <= s.highQc.round
    ensures NodeInv(c, w, VoteFor(s, b))
  {
    if CanVote(s, b) {
      SignVoteKeepsInv(c, w, s, b);
    }
  }

  lemma StoreGrows(c: Committee, w: World, blocks: map<Digest, Block>, stored: set<PayloadDigest>, b: Block)
    requires StoreOk(c, w, blocks, stored) && BlockOk(c, w, b) && GetParent(blocks, b).Some?
    requires forall p :: p in b.payload ==> p in stored
    ensures StoreOk(c, w, blocks[b.Digest() := b], stored)
  {
  }

  /** With the parent of every stored block stored, the grandparent is never missing. */
  lemma AncestorsAreStored(c: Committee, w: World, blocks: map<Digest, Block>, stored: set<PayloadDigest>, b: Block)
    requires StoreOk(c, w, blocks, stored) && GetParent(blocks, b).Some?
    ensures GetParent(blocks, GetParent(blocks, b).value).Some?
  {
  }

  lemma StoreAndCommitKeepsInv(c: Committee, w: World, s: NodeState, b: Block)
    requires NodeInv(c, w, s) && BlockOk(c, w, b) && HasPayload(s, b) && GetParent(s.blocks, b).Some?
    ensures GetParent(s.blocks, GetParent(s.blocks, b).value).Some?
    ensures var b1 := GetParent(s.blocks, b).value; var b0 := GetParent(s.blocks, b1).value;
      NodeInv(c, w, StoreAndCommit(s, b0, b1, b))
  {
    AncestorsAreStored(c, w, s.blocks, s.mempool.stored, b);
    StoreGrows(c, w, s.blocks, s.mempool.stored, b);
    var b1 := GetParent(s.blocks, b).value;
    var b0 := GetParent(s.blocks, b1).value;
    var t := StoreAndCommit(s, b0, b1, b);
    assert CommitsOk(c, w, t.blocks, s.commits);
    if b0.round + 1 == b1.round {
      assert CommitOk(c, w, t.blocks, Commit(b0, b1, b));
    }
  }

  lemma ProcessBlockKeepsInv(c: Committee, w: World, s: NodeState, b: Block)
    requires NodeInv(c, w, s)
    requires BlockOk(c, w, b) && b.qc.round <= s.highQc.round && HasPayload(s, b)
    ensures NodeInv(c, w, ProcessBlock(s, b))
  {
    if GetParent(s.blocks, b).Some? {
      StoreAndCommitKeepsInv(c, w, s, b);
      var b1 := GetParent(s.blocks, b).value;
      var b0 := GetParent(s.blocks, b1).value;
      var s1 := StoreAndCommit(s, b0, b1, b);
      if b.round == s1.round {
        VoteForKeepsInv(c, w, s1, b);
      }
    }
  }

  lemma ProcessCertificatesKeepsInv(c: Committee, w: World, s: NodeState, b: Block)
    requires NodeInv(c, w, s) && BlockOk(c, w, b)
    ensures NodeInv(c, w, ProcessCertificates(s, b))
  {
    ProcessQCKeepsInv(c, w, s, b.qc);
    if b.tc.Some? {
      AdvanceRoundKeepsInv(c, w, ProcessQC(s, b.qc), b.tc.value.round);
    }
  }

  lemma HandleProposalKeepsInv(cfg: Config, w: World, s: NodeState, b: Block)
    requires NodeInv(cfg.committee, w, s) && GenuineBlock(w, b)
    ensures NodeInv(cfg.committee, w, HandleProposal(cfg, s, b))
  {
    if b.author == cfg.leader(b.round) && ValidBlock(cfg.committee, b) {
      ProcessCertificatesKeepsInv(cfg.committee, w, s, b);
      var s1 := ProcessCertificates(s, b);
      if HasPayload(s1, b) {
        ProcessBlockKeepsInv(cfg.committee, w, s1, b);
      }
    }
  }

  lemma ReceivePayloadKeepsInv(cfg: Config, w: World, s: NodeState, p: PayloadDigest, own: bool, oversized: bool)
    requires NodeInv(cfg.committee, w, s)
    ensures NodeInv(cfg.committee, w, ReceivePayload(cfg, s, p, own, oversized))
  {
    StoreOkStays(cfg.committee, w, s.blocks, s.mempool.stored, s.mempool.stored + {p});
  }

  /** What a node sends on request was verified, and is a message like any other. */
  lemma AnswerIsGenuine(c: Committee, w: World, s: NodeState, digest: Digest)
    requires NodeInv(c, w, s) && digest in s.blocks
    ensures s.blocks[digest].Digest() == digest && CertificatesOk(c, s.blocks[digest])
    ensures GenuineEvent(w, Propose(s.blocks[digest]))
  {
    assert StoreOk(c, w, s.blocks, s.mempool.stored);
  }

  lemma BootKeepsInv(cfg: Config, w: World, name: PublicKey, boycott: bool, made: Option<PayloadDigest>)
    requires Recorded(w, Boot(cfg, name, boycott, made))
    ensures NodeInv(cfg.committee, w, Boot(cfg, name, boycott, made))
  {
    var s := Start(name, boycott);
    assert NodeInv(cfg.committee, w, s);
    ProposeIfLeaderKeepsInv(cfg, w, s, None, made);
  }
}

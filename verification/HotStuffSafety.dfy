/**
 Why two honest nodes never commit conflicting blocks.

 A world is what the honest nodes have signed so far, each node's acts in the order in which it
 signed them. Everything here follows from the discipline of the single nodes and from the stake
 that quorums share; nothing refers to how a node reaches its decisions.
 */
module HotStuffSafety {
  import opened Committees
  import opened Messages

  /** Something a node signs. */
  datatype Act = Proposed(block: Block) | Voted(block: Block) | TimedOut(round: Round, highQcRound: Round) {
    function Statement(): Statement {
      match this
      case Proposed(b) => BlockStatement(b.Digest())
      case Voted(b) => VoteStatement(b.Digest(), b.round)
      case TimedOut(r, q) => TimeoutStatement(r, q)
    }
  }

  type World = map<PublicKey, seq<Act>>

  /** What must hold between an act and a later one of the same node. */
  predicate MayFollow(earlier: Act, later: Act) {
    && (earlier.Proposed? && later.Proposed? ==> earlier.block.round < later.block.round)
    && (earlier.Voted? && later.Voted? ==> earlier.block.round < later.block.round)
    && (earlier.TimedOut? && later.Voted? ==> earlier.round < later.block.round)
    && (earlier.Voted? && later.TimedOut? ==>
        earlier.block.round <= later.round && earlier.block.qc.round <= later.highQcRound)
  }

  predicate Disciplined(log: seq<Act>) {
    forall i, j :: 0 <= i < j < |log| ==> MayFollow(log[i], log[j])
  }

  /** The block extends the certificate of the previous round, or a timeout certificate lets it skip. */
  predicate SafetyRule2(b: Block) {
    || b.qc.round + 1 == b.round
    || (b.tc.Some?
        && b.tc.value.round + 1 == b.round
        && forall v :: v in b.tc.value.votes ==> v.highQcRound <= b.qc.round)
  }

  ghost predicate Justified(c: Committee, b: Block) {
    CertificatesOk(c, b) && SafetyRule2(b) && b.qc.round < b.round
  }

  /** Signatures cannot be forged: an honest node's signature is on something that it signed. */
  ghost predicate Genuine(w: World, s: Signature) {
    s.Signed? && s.signer in w ==> exists act :: act in w[s.signer] && act.Statement() == s.statement
  }

  ghost predicate GenuineQC(w: World, qc: QC) {
    forall v :: v in qc.votes ==> Genuine(w, v.signature)
  }

  ghost predicate GenuineTC(w: World, tc: TC) {
    forall v :: v in tc.votes ==> Genuine(w, v.signature)
  }

  ghost predicate GenuineBlock(w: World, b: Block) {
    Genuine(w, b.signature) && GenuineQC(w, b.qc) && (b.tc.Some? ==> GenuineTC(w, b.tc.value))
  }

  ghost predicate HonestMajority(c: Committee, honest: set<PublicKey>) {
    c.Sound() && c.StakeOf(c.authorities.Keys - honest) <= MaxFaulty(c.Total())
  }

  ghost predicate LogOk(c: Committee, w: World, log: seq<Act>) {
    && Disciplined(log)
    && forall act :: act in log && act.Voted? ==> Justified(c, act.block) && GenuineBlock(w, act.block)
  }

  ghost predicate WorldOk(c: Committee, w: World) {
    HonestMajority(c, w.Keys) && forall h :: h in w ==> LogOk(c, w, w[h])
  }

  /** A certificate that was verified and whose honest signatures are not forged. */
  ghost predicate Certificate(c: Committee, w: World, qc: QC) {
    ValidQC(c, qc) && GenuineQC(w, qc)
  }

  ghost predicate TimeoutCertificate(c: Committee, w: World, tc: TC) {
    ValidTC(c, tc) && GenuineTC(w, tc)
  }

  // From certificates to the acts behind them

  lemma VoteBehind(c: Committee, w: World, qc: QC, h: PublicKey) returns (b: Block)
    requires WorldOk(c, w) && Certificate(c, w, qc)
    requires h in w && h in SetOf(qc.Names())
    ensures Voted(b) in w[h] && b.Digest() == qc.hash && b.round == qc.round
    ensures Justified(c, b) && GenuineBlock(w, b)
  {
    var i :| 0 <= i < |qc.votes| && qc.Names()[i] == h;
    assert qc.votes[i] in qc.votes;
    var act :| act in w[h] && act.Statement() == VoteStatement(qc.hash, qc.round);
    b := act.block;
    assert LogOk(c, w, w[h]);
  }

  lemma TimeoutBehind(c: Committee, w: World, tc: TC, h: PublicKey) returns (v: TCVote)
    requires WorldOk(c, w) && TimeoutCertificate(c, w, tc)
    requires h in w && h in SetOf(tc.Names())
    ensures v in tc.votes && TimedOut(tc.round, v.highQcRound) in w[h]
  {
    var i :| 0 <= i < |tc.votes| && tc.Names()[i] == h;
    v := tc.votes[i];
    var act :| act in w[h] && act.Statement() == TimeoutStatement(tc.round, v.highQcRound);
    assert act == TimedOut(tc.round, v.highQcRound);
  }

  lemma HonestVoter(c: Committee, w: World, qc: QC) returns (b: Block)
    requires WorldOk(c, w) && Certificate(c, w, qc)
    ensures b.Digest() == qc.hash && b.round == qc.round
    ensures Justified(c, b) && GenuineBlock(w, b)
  {
    var names := SetOf(qc.Names());
    var h := QuorumsShareHonest(c, w.Keys, names, names);
    b := VoteBehind(c, w, qc, h);
  }

  /** The round that a certificate states is the round of the block that it names, and is not 0. */
  lemma CertificateNamesItsRound(c: Committee, w: World, qc: QC)
    requires WorldOk(c, w) && Certificate(c, w, qc)
    ensures qc.hash.BlockDigest? && qc.hash.round == qc.round && qc.round > 0
  {
    var b := HonestVoter(c, w, qc);
  }

  /** The block that a certificate names extends the genesis block or another certified block. */
  lemma ParentCertificate(c: Committee, w: World, qc: QC) returns (p: QC)
    requires WorldOk(c, w) && Certificate(c, w, qc)
    ensures qc.hash.BlockDigest? && p.hash == qc.hash.parent
    ensures p.IsGenesis() || Certificate(c, w, p)
    ensures p.round == RoundOf(p.hash) < qc.round
  {
    var b := HonestVoter(c, w, qc);
    p := b.qc;
    if !p.IsGenesis() {
      CertificateNamesItsRound(c, w, p);
    }
  }

  lemma {:induction false} CertifiedChainIncreases(c: Committee, w: World, qc: QC)
    requires WorldOk(c, w) && Certificate(c, w, qc)
    ensures Increasing(qc.hash)
    decreases qc.round
  {
    var p := ParentCertificate(c, w, qc);
    CertificateNamesItsRound(c, w, qc);
    if !p.IsGenesis() {
      CertifiedChainIncreases(c, w, p);
    }
  }

  // One certified block per round

  lemma VotesOfOneRound(log: seq<Act>, b: Block, b': Block)
    requires Disciplined(log) && Voted(b) in log && Voted(b') in log
    ensures b.round == b'.round ==> b == b'
  {
    var i :| 0 <= i < |log| && log[i] == Voted(b);
    var j :| 0 <= j < |log| && log[j] == Voted(b');
    assert i < j ==> MayFollow(log[i], log[j]);
    assert j < i ==> MayFollow(log[j], log[i]);
  }

  lemma OneBlockPerRound(c: Committee, w: World, q: QC, q': QC)
    requires WorldOk(c, w) && Certificate(c, w, q) && Certificate(c, w, q')
    requires q.round == q'.round
    ensures q.hash == q'.hash
  {
    var h := QuorumsShareHonest(c, w.Keys, SetOf(q.Names()), SetOf(q'.Names()));
    var b := VoteBehind(c, w, q, h);
    var b' := VoteBehind(c, w, q', h);
    assert LogOk(c, w, w[h]);
    VotesOfOneRound(w[h], b, b');
  }

  // Timeout certificates

  lemma VoteThenTimeout(log: seq<Act>, b: Block, round: Round, highQcRound: Round)
    requires Disciplined(log) && Voted(b) in log && TimedOut(round, highQcRound) in log
    requires b.round <= round
    ensures b.qc.round <= highQcRound
  {
    var i :| 0 <= i < |log| && log[i] == Voted(b);
    var j :| 0 <= j < |log| && log[j] == TimedOut(round, highQcRound);
    assert i < j ==> MayFollow(log[i], log[j]);
  }

  /** A timeout certificate reports the parent round of every block certified up to its round. */
  lemma TimeoutCertificateCovers(c: Committee, w: World, tc: TC, qc: QC)
    requires WorldOk(c, w) && TimeoutCertificate(c, w, tc) && Certificate(c, w, qc)
    requires qc.round <= tc.round
    ensures qc.hash.BlockDigest? && tc.votes != []
    ensures Max(tc.HighQcRounds()) >= RoundOf(qc.hash.parent)
  {
    var h := QuorumsShareHonest(c, w.Keys, SetOf(tc.Names()), SetOf(qc.Names()));
    var b := VoteBehind(c, w, qc, h);
    var v := TimeoutBehind(c, w, tc, h);
    assert LogOk(c, w, w[h]);
    VoteThenTimeout(w[h], b, tc.round, v.highQcRound);
    CarriedRound(c, w, b);
    ReportedAtMostMax(tc, v);
  }

  lemma CarriedRound(c: Committee, w: World, b: Block)
    requires WorldOk(c, w) && Justified(c, b) && GenuineBlock(w, b)
    ensures b.qc.round == RoundOf(b.qc.hash)
  {
    if !b.qc.IsGenesis() {
      CertificateNamesItsRound(c, w, b.qc);
    }
  }

  lemma ReportedAtMostMax(tc: TC, v: TCVote)
    requires v in tc.votes
    ensures v.highQcRound <= Max(tc.HighQcRounds())
  {
    var i :| 0 <= i < |tc.votes| && tc.votes[i] == v;
    assert tc.HighQcRounds()[i] == v.highQcRound;
    assert v.highQcRound in tc.HighQcRounds();
  }

  lemma MaxIsReached(tc: TC)
    requires tc.votes != []
    ensures exists v :: v in tc.votes && v.highQcRound == Max(tc.HighQcRounds())
  {
    var m := Max(tc.HighQcRounds());
    var i :| 0 <= i < |tc.votes| && tc.HighQcRounds()[i] == m;
    assert tc.votes[i] in tc.votes;
  }

  /** Reaching the largest reported round is reaching all of them. */
  lemma SkippingIsSafe(tc: TC, qcRound: Round)
    requires tc.votes != []
    ensures qcRound >= Max(tc.HighQcRounds()) <==> forall v :: v in tc.votes ==> v.highQcRound <= qcRound
  {
    MaxIsReached(tc);
    forall v | v in tc.votes ensures v.highQcRound <= Max(tc.HighQcRounds()) {
      ReportedAtMostMax(tc, v);
    }
  }

  // The lock

  /** The certificate completes a two-chain: its block directly follows its parent's round. */
  predicate Commits(qc: QC) {
    qc.hash.BlockDigest? && RoundOf(qc.hash.parent) + 1 == qc.round
  }

  /** A justified block above a two-chain carries a certificate not below the locked block. */
  lemma JustifiedAboveLock(c: Committee, w: World, lock: QC, b: Block)
    requires WorldOk(c, w) && Certificate(c, w, lock) && Commits(lock)
    requires Justified(c, b) && GenuineBlock(w, b) && lock.round < b.round
    ensures RoundOf(lock.hash.parent) <= b.qc.round
  {
    if b.qc.round + 1 != b.round {
      TimeoutCertificateCovers(c, w, b.tc.value, lock);
      MaxIsReached(b.tc.value);
    }
  }

  /** Every block certified from the round of a two-chain's head on descends from the locked block. */
  lemma {:induction false} CommitLock(c: Committee, w: World, lock: QC, qc: QC)
    requires WorldOk(c, w) && Certificate(c, w, lock) && Commits(lock)
    requires Certificate(c, w, qc) && lock.round <= qc.round
    ensures Extends(qc.hash, lock.hash.parent)
    decreases qc.round
  {
    if qc.round == lock.round {
      OneBlockPerRound(c, w, lock, qc);
    } else {
      var b := HonestVoter(c, w, qc);
      JustifiedAboveLock(c, w, lock, b);
      if lock.round <= b.qc.round {
        CommitLock(c, w, lock, b.qc);
      } else {
        LockedRound(c, w, lock, b.qc);
      }
    }
  }

  /** A certificate (or the genesis one) for the locked round names the locked block. */
  lemma LockedRound(c: Committee, w: World, lock: QC, qc: QC)
    requires WorldOk(c, w) && Certificate(c, w, lock) && Commits(lock)
    requires qc.IsGenesis() || Certificate(c, w, qc)
    requires qc.round == RoundOf(lock.hash.parent)
    ensures qc.hash == lock.hash.parent
  {
    var p := ParentCertificate(c, w, lock);
    if qc.IsGenesis() {
      assert p.IsGenesis() by {
        if !p.IsGenesis() {
          CertificateNamesItsRound(c, w, p);
        }
      }
    } else {
      CertificateNamesItsRound(c, w, qc);
      OneBlockPerRound(c, w, p, qc);
    }
  }

  /** Two completed two-chains lock blocks of one chain. */
  lemma TwoChainsAgree(c: Committee, w: World, q: QC, q': QC)
    requires WorldOk(c, w)
    requires Certificate(c, w, q) && Commits(q)
    requires Certificate(c, w, q') && Commits(q')
    ensures Extends(q.hash.parent, q'.hash.parent) || Extends(q'.hash.parent, q.hash.parent)
  {
    if q'.round < q.round {
      TwoChainsAgreeOrdered(c, w, q', q);
    } else {
      TwoChainsAgreeOrdered(c, w, q, q');
    }
  }

  lemma TwoChainsAgreeOrdered(c: Committee, w: World, low: QC, high: QC)
    requires WorldOk(c, w)
    requires Certificate(c, w, low) && Commits(low)
    requires Certificate(c, w, high) && Commits(high)
    requires low.round <= high.round
    ensures Extends(high.hash.parent, low.hash.parent)
  {
    CommitLock(c, w, low, high);
    if high.hash == low.hash.parent {
      CertificateNamesItsRound(c, w, high);
      assert false;
    }
  }
}

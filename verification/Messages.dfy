/**
 Blocks, votes, timeouts and certificates of the HotStuff core.

 Hashing and signing are ideal: a digest is the tuple that the program hashes, and a signature is
 the pair of its signer and the statement that was signed.
 */
module Messages {
  import opened Wrappers
  import opened Committees

  type Round = nat

  datatype PayloadDigest = PayloadDigest(id: nat)

  /** What the program hashes for a block; `Zero` is the default digest. */
  datatype Digest =
    | Zero
    | BlockDigest(author: PublicKey, round: Round, payload: seq<PayloadDigest>, parent: Digest)

  datatype Statement =
    | BlockStatement(digest: Digest)
    | VoteStatement(hash: Digest, round: Round)
    | TimeoutStatement(round: Round, highQcRound: Round)

  datatype Signature = Unsigned | Signed(signer: PublicKey, statement: Statement)

  datatype ConsensusError =
    | AuthorityReuse(name: PublicKey)
    | UnknownAuthority(name: PublicKey)
    | QCRequiresQuorum
    | TCRequiresQuorum
    | InvalidSignature

  datatype QCVote = QCVote(author: PublicKey, signature: Signature)

  datatype QC = QC(hash: Digest, round: Round, votes: seq<QCVote>) {
    /** Equality of certificates ignores the votes. */
    predicate SameAs(other: QC) {
      hash == other.hash && round == other.round
    }

    predicate IsGenesis() {
      SameAs(GENESIS_QC)
    }

    function Names(): seq<PublicKey> {
      seq(|votes|, i requires 0 <= i < |votes| => votes[i].author)
    }
  }

  datatype TCVote = TCVote(author: PublicKey, signature: Signature, highQcRound: Round)

  datatype TC = TC(round: Round, votes: seq<TCVote>) {
    function Names(): seq<PublicKey> {
      seq(|votes|, i requires 0 <= i < |votes| => votes[i].author)
    }

    function HighQcRounds(): seq<Round> {
      seq(|votes|, i requires 0 <= i < |votes| => votes[i].highQcRound)
    }
  }

  datatype Block = Block(
    qc: QC,
    tc: Option<TC>,
    author: PublicKey,
    round: Round,
    payload: seq<PayloadDigest>,
    signature: Signature)
  {
    function Digest(): Digest {
      BlockDigest(author, round, payload, qc.hash)
    }
  }

  datatype Vote = Vote(hash: Digest, round: Round, author: PublicKey, signature: Signature) {
    predicate WellSigned() {
      signature == Signed(author, VoteStatement(hash, round))
    }
  }

  datatype Timeout = Timeout(highQcRound: Round, round: Round, author: PublicKey, signature: Signature) {
    predicate WellSigned() {
      signature == Signed(author, TimeoutStatement(round, highQcRound))
    }
  }

  const GENESIS_QC := QC(Zero, 0, [])

  const GENESIS_BLOCK := Block(GENESIS_QC, None, PublicKey(0), 0, [], Unsigned)

  /** The largest element, as `iter().max()` finds it. */
  function Max(s: seq<nat>): (m: nat)
    requires s != []
    ensures m in s
    ensures forall x :: x in s ==> x <= m
  {
    if |s| == 1 then s[0]
    else
      var rest := Max(s[1..]);
      assert s == [s[0]] + s[1..];
      if s[0] > rest then s[0] else rest
  }

  // Validity of certificates

  predicate Distinct(names: seq<PublicKey>) {
    forall i, j :: 0 <= i < j < |names| ==> names[i] != names[j]
  }

  /** The names are pairwise different and all have voting rights. */
  predicate Eligible(c: Committee, names: seq<PublicKey>) {
    && Distinct(names)
    && forall i :: 0 <= i < |names| ==> c.Stake(names[i]) > 0
  }

  function SetOf(names: seq<PublicKey>): set<PublicKey> {
    set x | x in names
  }

  ghost predicate HasQuorum(c: Committee, names: seq<PublicKey>) {
    Eligible(c, names) && c.StakeOf(SetOf(names)) >= c.Quorum()
  }

  predicate QCWellSigned(qc: QC) {
    forall v :: v in qc.votes ==> v.signature == Signed(v.author, VoteStatement(qc.hash, qc.round))
  }

  predicate TCWellSigned(tc: TC) {
    forall v :: v in tc.votes ==> v.signature == Signed(v.author, TimeoutStatement(tc.round, v.highQcRound))
  }

  ghost predicate ValidQC(c: Committee, qc: QC) {
    HasQuorum(c, qc.Names()) && QCWellSigned(qc)
  }

  ghost predicate ValidTC(c: Committee, tc: TC) {
    HasQuorum(c, tc.Names()) && TCWellSigned(tc)
  }

  /** The certificates that a block carries have been checked. */
  ghost predicate CertificatesOk(c: Committee, b: Block) {
    && (b.qc.IsGenesis() || ValidQC(c, b.qc))
    && (b.tc.Some? ==> ValidTC(c, b.tc.value))
  }

  ghost predicate ValidBlock(c: Committee, b: Block) {
    && c.Stake(b.author) > 0
    && b.signature == Signed(b.author, BlockStatement(b.Digest()))
    && CertificatesOk(c, b)
  }

  predicate ValidVote(c: Committee, v: Vote) {
    c.Stake(v.author) > 0 && v.WellSigned()
  }

  predicate ValidTimeout(c: Committee, t: Timeout) {
    c.Stake(t.author) > 0 && t.WellSigned()
  }

  // The verifying loops

  /** Position `i` is the first one at which the list of names stops being eligible. */
  ghost predicate FirstOffence(c: Committee, names: seq<PublicKey>, i: nat) {
    i < |names| && Eligible(c, names[..i]) && !Eligible(c, names[..i + 1])
  }

  method VerifyAuthorities(c: Committee, names: seq<PublicKey>) returns (r: Result<nat, ConsensusError>)
    ensures r.Success? <==> Eligible(c, names)
    ensures r.Success? ==> r.value == c.StakeOf(SetOf(names))
    ensures r.Failure? ==> exists i: nat ::
      && FirstOffence(c, names, i)
      && r.error == if names[i] in names[..i] then AuthorityReuse(names[i]) else UnknownAuthority(names[i])
  {
    var weight := 0;
    var used := {};
    for i := 0 to |names|
      invariant used == SetOf(names[..i])
      invariant Eligible(c, names[..i])
      invariant weight == c.StakeOf(used)
    {
      assert names[..i + 1] == names[..i] + [names[i]];
      var votingRights := c.Stake(names[i]);
      if names[i] in used {
        var k :| 0 <= k < i && names[k] == names[i];
        assert names[..i + 1][k] == names[..i + 1][i];
        assert FirstOffence(c, names, i);
        return Failure(AuthorityReuse(names[i]));
      }
      if votingRights == 0 {
        assert names[..i + 1][i] == names[i];
        assert FirstOffence(c, names, i);
        return Failure(UnknownAuthority(names[i]));
      }
      StakeOfAdd(c, used, names[i]);
      used := used + {names[i]};
      weight := weight + votingRights;
    }
    assert names[..|names|] == names;
    return Success(weight);
  }

  method VerifyQC(c: Committee, qc: QC) returns (r: Result<(), ConsensusError>)
    ensures r.Success? <==> ValidQC(c, qc)
    ensures r == Failure(QCRequiresQuorum) <==> Eligible(c, qc.Names()) && !HasQuorum(c, qc.Names())
    ensures r == Failure(InvalidSignature) <==> HasQuorum(c, qc.Names()) && !QCWellSigned(qc)
  {
    var authorities := VerifyAuthorities(c, qc.Names());
    if authorities.Failure? {
      return Failure(authorities.error);
    }
    var threshold := c.QuorumThreshold();
    if authorities.value < threshold {
      return Failure(QCRequiresQuorum);
    }
    return if QCWellSigned(qc) then Success(()) else Failure(InvalidSignature);
  }

  method VerifyTC(c: Committee, tc: TC) returns (r: Result<(), ConsensusError>)
    ensures r.Success? <==> ValidTC(c, tc)
    ensures r == Failure(TCRequiresQuorum) <==> Eligible(c, tc.Names()) && !HasQuorum(c, tc.Names())
    ensures r == Failure(InvalidSignature) <==> HasQuorum(c, tc.Names()) && !TCWellSigned(tc)
  {
    var authorities := VerifyAuthorities(c, tc.Names());
    if authorities.Failure? {
      return Failure(authorities.error);
    }
    var threshold := c.QuorumThreshold();
    if authorities.value < threshold {
      return Failure(TCRequiresQuorum);
    }
    for i := 0 to |tc.votes|
      invariant forall k :: 0 <= k < i ==>
        tc.votes[k].signature == Signed(tc.votes[k].author, TimeoutStatement(tc.round, tc.votes[k].highQcRound))
    {
      var v := tc.votes[i];
      if v.signature != Signed(v.author, TimeoutStatement(tc.round, v.highQcRound)) {
        assert v in tc.votes;
        return Failure(InvalidSignature);
      }
    }
    return Success(());
  }

  method VerifyBlock(c: Committee, b: Block) returns (r: Result<(), ConsensusError>)
    ensures r.Success? <==> ValidBlock(c, b)
  {
    if c.Stake(b.author) == 0 {
      return Failure(UnknownAuthority(b.author));
    }
    if b.signature != Signed(b.author, BlockStatement(b.Digest())) {
      return Failure(InvalidSignature);
    }
    if !b.qc.IsGenesis() {
      r := VerifyQC(c, b.qc);
      if r.Failure? {
        return;
      }
    }
    if b.tc.Some? {
      r := VerifyTC(c, b.tc.value);
      return;
    }
    return Success(());
  }

  /** A valid certificate has voters, so `max().expect("Empty TC")` cannot fail. */
  lemma QuorumIsNotEmpty(c: Committee, names: seq<PublicKey>)
    requires HasQuorum(c, names)
    ensures names != []
  {
    assert names == [] ==> SetOf(names) == {};
  }

  // Chains of digests

  function RoundOf(d: Digest): Round {
    if d == Zero then 0 else d.round
  }

  /** `a` lies on the chain that ends in `d`; every chain starts in `Zero`. */
  predicate Extends(d: Digest, a: Digest) {
    d == a || (d.BlockDigest? && Extends(d.parent, a))
  }

  /** Rounds strictly increase along the chain that ends in `d`. */
  predicate Increasing(d: Digest) {
    d.BlockDigest? ==> RoundOf(d.parent) < d.round && Increasing(d.parent)
  }

  lemma {:induction false} ExtendsTransitive(d: Digest, b: Digest, a: Digest)
    requires Extends(d, b) && Extends(b, a)
    ensures Extends(d, a)
  {
    if d != b {
      ExtendsTransitive(d.parent, b, a);
    }
  }

  lemma {:induction false} ZeroIsCommonAncestor(d: Digest)
    ensures Extends(d, Zero)
  {
    if d.BlockDigest? {
      ZeroIsCommonAncestor(d.parent);
    }
  }

  /** Where a block stands in the chain of digests: the genesis block stands at `Zero`. */
  function Position(b: Block): Digest {
    if b == GENESIS_BLOCK then Zero else b.Digest()
  }
}

/**
 What the makers and the aggregator promise: valid certificates, and one of them per quorum.
 */
module AggregatorCorrectness {
  import opened Committees
  import opened Messages
  import opened Aggregators

  // What a maker knows about its count

  /** Either everybody who voted is still being counted and is short of a quorum, or one was counted. */
  ghost predicate Counting(c: Committee, weight: nat, names: seq<PublicKey>, used: set<PublicKey>) {
    && Eligible(c, names)
    && used == SetOf(names)
    && ((weight == c.StakeOf(used) && weight < c.Quorum()) || Counted(c, weight, used))
  }

  ghost predicate Counted(c: Committee, weight: nat, used: set<PublicKey>) {
    exists counted :: counted <= used && c.StakeOf(counted) >= c.Quorum() && weight == c.StakeOf(used - counted)
  }

  ghost predicate QCMakerOk(c: Committee, key: Statement, m: QCMakerState) {
    && key.VoteStatement?
    && Counting(c, m.weight, m.Names(), m.used)
    && forall v :: v in m.votes ==> v.signature == Signed(v.author, key)
  }

  ghost predicate TCMakerOk(c: Committee, round: Round, m: TCMakerState) {
    && Counting(c, m.weight, m.Names(), m.used)
    && forall v :: v in m.votes ==> v.signature == Signed(v.author, TimeoutStatement(round, v.highQcRound))
  }

  ghost predicate AggregatorOk(c: Committee, a: AggregatorState) {
    && (forall k :: k in a.qcs ==> QCMakerOk(c, k, a.qcs[k]))
    && (forall k :: k in a.tcs ==> TCMakerOk(c, k, a.tcs[k]))
  }

  lemma EligibleOneMore(c: Committee, names: seq<PublicKey>, x: PublicKey)
    requires Eligible(c, names) && x !in SetOf(names) && c.Stake(x) > 0
    ensures Eligible(c, names + [x]) && SetOf(names + [x]) == SetOf(names) + {x}
  {
    assert forall i :: 0 <= i < |names| ==> names[i] in SetOf(names);
  }

  /** Once a quorum was counted, no other one can be reached. */
  lemma CountedStays(c: Committee, weight: nat, used: set<PublicKey>, x: PublicKey)
    requires c.Sound() && Counted(c, weight, used) && x !in used
    ensures Counted(c, weight + c.Stake(x), used + {x})
    ensures weight + c.Stake(x) < c.Quorum()
  {
    var counted :| counted <= used && c.StakeOf(counted) >= c.Quorum() && weight == c.StakeOf(used - counted);
    assert used + {x} - counted == used - counted + {x};
    StakeOfAdd(c, used - counted, x);
    LeftoverBelowQuorum(c, counted, used - counted + {x});
  }

  lemma CountedAll(c: Committee, used: set<PublicKey>)
    requires c.StakeOf(used) >= c.Quorum()
    ensures Counted(c, 0, used)
  {
    assert used - used == {};
  }

  /** Counting one more authority: the names have a quorum the moment that the weight says so. */
  lemma CountOneMore(c: Committee, weight: nat, names: seq<PublicKey>, used: set<PublicKey>, x: PublicKey)
    requires c.Sound() && Counting(c, weight, names, used)
    requires x !in used && c.Stake(x) > 0
    ensures weight + c.Stake(x) >= c.Quorum() ==>
      HasQuorum(c, names + [x]) && Counting(c, 0, names + [x], used + {x})
    ensures weight + c.Stake(x) < c.Quorum() ==> Counting(c, weight + c.Stake(x), names + [x], used + {x})
  {
    EligibleOneMore(c, names, x);
    StakeOfAdd(c, used, x);
    if Counted(c, weight, used) {
      CountedStays(c, weight, used, x);
    } else if weight + c.Stake(x) >= c.Quorum() {
      CountedAll(c, used + {x});
    }
  }

  lemma VoteNames(m: QCMakerState, v: QCVote)
    ensures m.(votes := m.votes + [v]).Names() == m.Names() + [v.author]
  {
  }

  lemma TimeoutNames(m: TCMakerState, v: TCVote)
    ensures m.(votes := m.votes + [v]).Names() == m.Names() + [v.author]
  {
  }

  /** Appending a verified vote keeps the maker in order, and a certificate that comes out is valid. */
  lemma AppendKeepsMaker(c: Committee, m: QCMakerState, v: Vote)
    requires c.Sound() && QCMakerOk(c, VoteStatement(v.hash, v.round), m) && ValidVote(c, v)
    ensures QCMakerOk(c, VoteStatement(v.hash, v.round), AppendVote(c, m, v).0)
    ensures var r := AppendVote(c, m, v).1; r.Success? && r.value.Some? ==>
      ValidQC(c, r.value.value) && r.value.value.hash == v.hash && r.value.value.round == v.round
  {
    if v.author !in m.used {
      CountOneMore(c, m.weight, m.Names(), m.used, v.author);
      VoteNames(m, QCVote(v.author, v.signature));
      var votes := m.votes + [QCVote(v.author, v.signature)];
      assert QC(v.hash, v.round, votes).Names() == m.Names() + [v.author];
      assert forall u :: u in votes ==> u.signature == Signed(u.author, VoteStatement(v.hash, v.round));
      assert AppendVote(c, m, v).0.Names() == m.Names() + [v.author];
    }
  }

  lemma AppendTimeoutKeepsMaker(c: Committee, m: TCMakerState, t: Timeout)
    requires c.Sound() && TCMakerOk(c, t.round, m) && ValidTimeout(c, t)
    ensures TCMakerOk(c, t.round, AppendTimeout(c, m, t).0)
    ensures var r := AppendTimeout(c, m, t).1; r.Success? && r.value.Some? ==>
      ValidTC(c, r.value.value) && r.value.value.round == t.round
  {
    if t.author !in m.used {
      CountOneMore(c, m.weight, m.Names(), m.used, t.author);
      TimeoutNames(m, TCVote(t.author, t.signature, t.highQcRound));
      var votes := m.votes + [TCVote(t.author, t.signature, t.highQcRound)];
      assert TC(t.round, votes).Names() == m.Names() + [t.author];
      assert forall u :: u in votes ==> u.signature == Signed(u.author, TimeoutStatement(t.round, u.highQcRound));
      assert AppendTimeout(c, m, t).0.Names() == m.Names() + [t.author];
    }
  }

  lemma EmptyMakersOk(c: Committee, key: Statement, round: Round)
    requires c.Sound() && key.VoteStatement?
    ensures QCMakerOk(c, key, NO_VOTES) && TCMakerOk(c, round, NO_TIMEOUTS)
  {
    assert SetOf(NO_VOTES.Names()) == {} && SetOf(NO_TIMEOUTS.Names()) == {};
  }

  lemma AddVoteKeepsAggregator(c: Committee, a: AggregatorState, v: Vote)
    requires c.Sound() && AggregatorOk(c, a) && ValidVote(c, v)
    ensures AggregatorOk(c, WithVote(c, a, v).0)
    ensures var r := WithVote(c, a, v).1; r.Success? && r.value.Some? ==>
      ValidQC(c, r.value.value) && r.value.value.hash == v.hash && r.value.value.round == v.round
  {
    var key := VoteStatement(v.hash, v.round);
    EmptyMakersOk(c, key, 0);
    AppendKeepsMaker(c, if key in a.qcs then a.qcs[key] else NO_VOTES, v);
  }

  lemma AddTimeoutKeepsAggregator(c: Committee, a: AggregatorState, t: Timeout)
    requires c.Sound() && AggregatorOk(c, a) && ValidTimeout(c, t)
    ensures AggregatorOk(c, WithTimeout(c, a, t).0)
    ensures var r := WithTimeout(c, a, t).1; r.Success? && r.value.Some? ==>
      ValidTC(c, r.value.value) && r.value.value.round == t.round
  {
    EmptyMakersOk(c, VoteStatement(Zero, 0), t.round);
    AppendTimeoutKeepsMaker(c, if t.round in a.tcs then a.tcs[t.round] else NO_TIMEOUTS, t);
  }

  // Makers fed with any sequence of verified messages

  /** The maker after the votes, and the certificates that came out on the way. */
  ghost function Feed(c: Committee, votes: seq<Vote>): (QCMakerState, seq<QC>) {
    if votes == [] then (NO_VOTES, [])
    else
      var (m, out) := Feed(c, votes[..|votes| - 1]);
      var (m', r) := AppendVote(c, m, votes[|votes| - 1]);
      (m', if r.Success? && r.value.Some? then out + [r.value.value] else out)
  }

  ghost function FeedTimeouts(c: Committee, timeouts: seq<Timeout>): (TCMakerState, seq<TC>) {
    if timeouts == [] then (NO_TIMEOUTS, [])
    else
      var (m, out) := FeedTimeouts(c, timeouts[..|timeouts| - 1]);
      var (m', r) := AppendTimeout(c, m, timeouts[|timeouts| - 1]);
      (m', if r.Success? && r.value.Some? then out + [r.value.value] else out)
  }

  function Authors(votes: seq<Vote>): set<PublicKey> {
    set v | v in votes :: v.author
  }

  function TimeoutAuthors(timeouts: seq<Timeout>): set<PublicKey> {
    set t | t in timeouts :: t.author
  }

  lemma AuthorsOneMore(votes: seq<Vote>, v: Vote)
    ensures Authors(votes + [v]) == Authors(votes) + {v.author}
    ensures v.author in Authors(votes) ==> Authors(votes + [v]) == Authors(votes)
  {
  }

  lemma TimeoutAuthorsOneMore(timeouts: seq<Timeout>, t: Timeout)
    ensures TimeoutAuthors(timeouts + [t]) == TimeoutAuthors(timeouts) + {t.author}
    ensures t.author in TimeoutAuthors(timeouts) ==> TimeoutAuthors(timeouts + [t]) == TimeoutAuthors(timeouts)
  {
  }

  /** What a maker's count says about the number of certificates that came out of it so far. */
  ghost predicate FeedOk(c: Committee, weight: nat, used: set<PublicKey>, made: nat) {
    && made == (if c.StakeOf(used) >= c.Quorum() then 1 else 0)
    && (if made == 0 then weight == c.StakeOf(used) else Counted(c, weight, used))
  }

  lemma FeedStep(c: Committee, weight: nat, used: set<PublicKey>, made: nat, x: PublicKey)
    requires c.Sound() && FeedOk(c, weight, used, made) && x !in used
    ensures if weight + c.Stake(x) >= c.Quorum() then FeedOk(c, 0, used + {x}, made + 1)
            else FeedOk(c, weight + c.Stake(x), used + {x}, made)
  {
    StakeOfAdd(c, used, x);
    if made > 0 {
      CountedStays(c, weight, used, x);
    } else if weight + c.Stake(x) >= c.Quorum() {
      CountedAll(c, used + {x});
    }
  }

  /**
   In whatever order and with whatever repetitions votes on one block arrive, exactly one certificate
   is made if their authors hold a quorum and none otherwise; and it is valid.
   */
  lemma {:induction false} OneCertificateAtQuorum(c: Committee, hash: Digest, round: Round, votes: seq<Vote>)
    requires c.Sound()
    requires forall v :: v in votes ==> ValidVote(c, v) && v.hash == hash && v.round == round
    ensures |Feed(c, votes).1| == if c.StakeOf(Authors(votes)) >= c.Quorum() then 1 else 0
    ensures forall qc :: qc in Feed(c, votes).1 ==> ValidQC(c, qc) && qc.hash == hash && qc.round == round
    ensures var m := Feed(c, votes).0;
      QCMakerOk(c, VoteStatement(hash, round), m) && m.used == Authors(votes)
      && FeedOk(c, m.weight, m.used, |Feed(c, votes).1|)
  {
    if votes == [] {
      EmptyMakersOk(c, VoteStatement(hash, round), round);
    } else {
      var init, v := votes[..|votes| - 1], votes[|votes| - 1];
      AuthorsOneMore(init, v);
      assert votes == init + [v] && v in votes;
      OneCertificateAtQuorum(c, hash, round, init);
      var (m, out) := Feed(c, init);
      AppendKeepsMaker(c, m, v);
      if v.author !in m.used {
        FeedStep(c, m.weight, m.used, |out|, v.author);
      }
    }
  }

  lemma {:induction false} OneTimeoutCertificateAtQuorum(c: Committee, round: Round, timeouts: seq<Timeout>)
    requires c.Sound()
    requires forall t :: t in timeouts ==> ValidTimeout(c, t) && t.round == round
    ensures |FeedTimeouts(c, timeouts).1| == if c.StakeOf(TimeoutAuthors(timeouts)) >= c.Quorum() then 1 else 0
    ensures forall tc :: tc in FeedTimeouts(c, timeouts).1 ==> ValidTC(c, tc) && tc.round == round
    ensures var m := FeedTimeouts(c, timeouts).0;
      TCMakerOk(c, round, m) && m.used == TimeoutAuthors(timeouts)
      && FeedOk(c, m.weight, m.used, |FeedTimeouts(c, timeouts).1|)
  {
    if timeouts == [] {
      EmptyMakersOk(c, VoteStatement(Zero, 0), round);
    } else {
      var init, t := timeouts[..|timeouts| - 1], timeouts[|timeouts| - 1];
      TimeoutAuthorsOneMore(init, t);
      assert timeouts == init + [t] && t in timeouts;
      OneTimeoutCertificateAtQuorum(c, round, init);
      var (m, out) := FeedTimeouts(c, init);
      AppendTimeoutKeepsMaker(c, m, t);
      if t.author !in m.used {
        FeedStep(c, m.weight, m.used, |out|, t.author);
      }
    }
  }
}

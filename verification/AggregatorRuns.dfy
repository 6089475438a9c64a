/**
 The aggregator over any sequence of votes, time-outs and clean-ups: whatever else arrives in between,
 the votes on one block accumulate, and their certificate is made exactly once, when they are a quorum.
 */
module AggregatorRuns {
  import opened Wrappers
  import opened Committees
  import opened Messages
  import opened Aggregators
  import opened AggregatorCorrectness

  datatype Operation = AddsVote(vote: Vote) | AddsTimeout(timeout: Timeout) | CleansUp(round: Round)

  /** The aggregator after the operations, and all certificates that came out of it. */
  datatype Outcome = Outcome(state: AggregatorState, qcs: seq<QC>, tcs: seq<TC>)

  ghost function Perform(c: Committee, o: Outcome, op: Operation): Outcome {
    match op
    case AddsVote(v) =>
      var (a, r) := WithVote(c, o.state, v);
      Outcome(a, if r.Success? && r.value.Some? then o.qcs + [r.value.value] else o.qcs, o.tcs)
    case AddsTimeout(t) =>
      var (a, r) := WithTimeout(c, o.state, t);
      Outcome(a, o.qcs, if r.Success? && r.value.Some? then o.tcs + [r.value.value] else o.tcs)
    case CleansUp(round) => o.(state := CleanedUp(o.state, round))
  }

  ghost function PerformAll(c: Committee, ops: seq<Operation>): Outcome {
    if ops == [] then Outcome(AggregatorState(map[], map[]), [], [])
    else Perform(c, PerformAll(c, ops[..|ops| - 1]), ops[|ops| - 1])
  }

  // What belongs to one block, or to one round

  predicate VotesOn(op: Operation, hash: Digest, round: Round) {
    op.AddsVote? && op.vote.hash == hash && op.vote.round == round
  }

  function VotesFor(ops: seq<Operation>, hash: Digest, round: Round): seq<Vote> {
    if ops == [] then []
    else
      var rest, op := VotesFor(ops[..|ops| - 1], hash, round), ops[|ops| - 1];
      if VotesOn(op, hash, round) then rest + [op.vote] else rest
  }

  function TimeoutsFor(ops: seq<Operation>, round: Round): seq<Timeout> {
    if ops == [] then []
    else
      var rest, op := TimeoutsFor(ops[..|ops| - 1], round), ops[|ops| - 1];
      if op.AddsTimeout? && op.timeout.round == round then rest + [op.timeout] else rest
  }

  function CertificatesFor(qcs: seq<QC>, hash: Digest, round: Round): seq<QC> {
    if qcs == [] then []
    else
      var rest, qc := CertificatesFor(qcs[..|qcs| - 1], hash, round), qcs[|qcs| - 1];
      if qc.hash == hash && qc.round == round then rest + [qc] else rest
  }

  function TimeoutCertificatesFor(tcs: seq<TC>, round: Round): seq<TC> {
    if tcs == [] then []
    else
      var rest, tc := TimeoutCertificatesFor(tcs[..|tcs| - 1], round), tcs[|tcs| - 1];
      if tc.round == round then rest + [tc] else rest
  }

  lemma CertificatesOneMore(qcs: seq<QC>, qc: QC, hash: Digest, round: Round)
    ensures CertificatesFor(qcs + [qc], hash, round) ==
      CertificatesFor(qcs, hash, round) + if qc.hash == hash && qc.round == round then [qc] else []
  {
    assert (qcs + [qc])[..|qcs|] == qcs;
  }

  lemma TimeoutCertificatesOneMore(tcs: seq<TC>, tc: TC, round: Round)
    ensures TimeoutCertificatesFor(tcs + [tc], round) ==
      TimeoutCertificatesFor(tcs, round) + if tc.round == round then [tc] else []
  {
    assert (tcs + [tc])[..|tcs|] == tcs;
  }

  // The aggregator's maker is the maker that is fed with the votes on its block

  function MakerOf(a: AggregatorState, hash: Digest, round: Round): QCMakerState {
    if VoteStatement(hash, round) in a.qcs then a.qcs[VoteStatement(hash, round)] else NO_VOTES
  }

  function TimeoutMakerOf(a: AggregatorState, round: Round): TCMakerState {
    if round in a.tcs then a.tcs[round] else NO_TIMEOUTS
  }

  /** No clean-up goes beyond the round. */
  predicate Keeps(ops: seq<Operation>, round: Round) {
    forall op :: op in ops && op.CleansUp? ==> op.round <= round
  }

  lemma FeedOneMore(c: Committee, votes: seq<Vote>, v: Vote)
    ensures var (m, out) := Feed(c, votes);
      var (m', r) := AppendVote(c, m, v);
      Feed(c, votes + [v]) == (m', if r.Success? && r.value.Some? then out + [r.value.value] else out)
  {
    assert (votes + [v])[..|votes|] == votes;
  }

  lemma FeedOneMoreTimeout(c: Committee, timeouts: seq<Timeout>, t: Timeout)
    ensures var (m, out) := FeedTimeouts(c, timeouts);
      var (m', r) := AppendTimeout(c, m, t);
      FeedTimeouts(c, timeouts + [t]) == (m', if r.Success? && r.value.Some? then out + [r.value.value] else out)
  {
    assert (timeouts + [t])[..|timeouts|] == timeouts;
  }

  /** Other operations leave the maker of a block and the certificates for it alone. */
  lemma OthersDoNotDisturb(c: Committee, o: Outcome, op: Operation, hash: Digest, round: Round)
    requires !VotesOn(op, hash, round) && (op.CleansUp? ==> op.round <= round)
    ensures MakerOf(Perform(c, o, op).state, hash, round) == MakerOf(o.state, hash, round)
    ensures CertificatesFor(Perform(c, o, op).qcs, hash, round) == CertificatesFor(o.qcs, hash, round)
  {
    if op.AddsVote? {
      var r := WithVote(c, o.state, op.vote).1;
      if r.Success? && r.value.Some? {
        CertificatesOneMore(o.qcs, r.value.value, hash, round);
      }
    }
  }

  lemma OthersDoNotDisturbTimeouts(c: Committee, o: Outcome, op: Operation, round: Round)
    requires (op.AddsTimeout? ==> op.timeout.round != round) && (op.CleansUp? ==> op.round <= round)
    ensures TimeoutMakerOf(Perform(c, o, op).state, round) == TimeoutMakerOf(o.state, round)
    ensures TimeoutCertificatesFor(Perform(c, o, op).tcs, round) == TimeoutCertificatesFor(o.tcs, round)
  {
    if op.AddsTimeout? {
      var r := WithTimeout(c, o.state, op.timeout).1;
      if r.Success? && r.value.Some? {
        TimeoutCertificatesOneMore(o.tcs, r.value.value, round);
      }
    }
  }

  /** The vote goes to the maker of its block. */
  lemma MakerTakesVote(c: Committee, a: AggregatorState, v: Vote)
    ensures var (a', r) := WithVote(c, a, v);
      (MakerOf(a', v.hash, v.round), r) == AppendVote(c, MakerOf(a, v.hash, v.round), v)
  {
  }

  lemma MakerTakesTimeout(c: Committee, a: AggregatorState, t: Timeout)
    ensures var (a', r) := WithTimeout(c, a, t);
      (TimeoutMakerOf(a', t.round), r) == AppendTimeout(c, TimeoutMakerOf(a, t.round), t)
  {
  }

  lemma CertificateComesOut(c: Committee, o: Outcome, v: Vote)
    ensures var r := AppendVote(c, MakerOf(o.state, v.hash, v.round), v).1;
      CertificatesFor(Perform(c, o, AddsVote(v)).qcs, v.hash, v.round) ==
      CertificatesFor(o.qcs, v.hash, v.round) + if r.Success? && r.value.Some? then [r.value.value] else []
  {
    MakerTakesVote(c, o.state, v);
    var r := WithVote(c, o.state, v).1;
    if r.Success? && r.value.Some? {
      CertificatesOneMore(o.qcs, r.value.value, v.hash, v.round);
    }
  }

  lemma TimeoutCertificateComesOut(c: Committee, o: Outcome, t: Timeout)
    ensures var r := AppendTimeout(c, TimeoutMakerOf(o.state, t.round), t).1;
      TimeoutCertificatesFor(Perform(c, o, AddsTimeout(t)).tcs, t.round) ==
      TimeoutCertificatesFor(o.tcs, t.round) + if r.Success? && r.value.Some? then [r.value.value] else []
  {
    MakerTakesTimeout(c, o.state, t);
    var r := WithTimeout(c, o.state, t).1;
    if r.Success? && r.value.Some? {
      TimeoutCertificatesOneMore(o.tcs, r.value.value, t.round);
    }
  }

  lemma VoteIsFed(c: Committee, o: Outcome, v: Vote, votes: seq<Vote>)
    requires Feed(c, votes) == (MakerOf(o.state, v.hash, v.round), CertificatesFor(o.qcs, v.hash, v.round))
    ensures var p := Perform(c, o, AddsVote(v));
      Feed(c, votes + [v]) == (MakerOf(p.state, v.hash, v.round), CertificatesFor(p.qcs, v.hash, v.round))
  {
    FeedOneMore(c, votes, v);
    MakerTakesVote(c, o.state, v);
    CertificateComesOut(c, o, v);
  }

  lemma TimeoutIsFed(c: Committee, o: Outcome, t: Timeout, timeouts: seq<Timeout>)
    requires FeedTimeouts(c, timeouts) == (TimeoutMakerOf(o.state, t.round), TimeoutCertificatesFor(o.tcs, t.round))
    ensures var p := Perform(c, o, AddsTimeout(t));
      FeedTimeouts(c, timeouts + [t]) == (TimeoutMakerOf(p.state, t.round), TimeoutCertificatesFor(p.tcs, t.round))
  {
    FeedOneMoreTimeout(c, timeouts, t);
    MakerTakesTimeout(c, o.state, t);
    TimeoutCertificateComesOut(c, o, t);
  }

  lemma {:induction false} VotesAccumulate(c: Committee, ops: seq<Operation>, hash: Digest, round: Round)
    requires Keeps(ops, round)
    ensures var o := PerformAll(c, ops);
      Feed(c, VotesFor(ops, hash, round)) == (MakerOf(o.state, hash, round), CertificatesFor(o.qcs, hash, round))
  {
    if ops != [] {
      var init, op := ops[..|ops| - 1], ops[|ops| - 1];
      VotesAccumulate(c, init, hash, round);
      if VotesOn(op, hash, round) {
        VoteIsFed(c, PerformAll(c, init), op.vote, VotesFor(init, hash, round));
      } else {
        OthersDoNotDisturb(c, PerformAll(c, init), op, hash, round);
      }
    }
  }

  lemma {:induction false} TimeoutsAccumulate(c: Committee, ops: seq<Operation>, round: Round)
    requires Keeps(ops, round)
    ensures var o := PerformAll(c, ops);
      FeedTimeouts(c, TimeoutsFor(ops, round)) == (TimeoutMakerOf(o.state, round), TimeoutCertificatesFor(o.tcs, round))
  {
    if ops != [] {
      var init, op := ops[..|ops| - 1], ops[|ops| - 1];
      TimeoutsAccumulate(c, init, round);
      if op.AddsTimeout? && op.timeout.round == round {
        TimeoutIsFed(c, PerformAll(c, init), op.timeout, TimeoutsFor(init, round));
      } else {
        OthersDoNotDisturbTimeouts(c, PerformAll(c, init), op, round);
      }
    }
  }

  // Main results

  /** Only verified votes and time-outs reach the aggregator. */
  predicate Verified(c: Committee, ops: seq<Operation>) {
    && (forall op :: op in ops && op.AddsVote? ==> ValidVote(c, op.vote))
    && (forall op :: op in ops && op.AddsTimeout? ==> ValidTimeout(c, op.timeout))
  }

  lemma {:induction false} VotesForAreVerified(c: Committee, ops: seq<Operation>, hash: Digest, round: Round)
    requires Verified(c, ops)
    ensures forall v :: v in VotesFor(ops, hash, round) ==> ValidVote(c, v) && v.hash == hash && v.round == round
  {
    if ops != [] {
      VotesForAreVerified(c, ops[..|ops| - 1], hash, round);
    }
  }

  lemma {:induction false} TimeoutsForAreVerified(c: Committee, ops: seq<Operation>, round: Round)
    requires Verified(c, ops)
    ensures forall t :: t in TimeoutsFor(ops, round) ==> ValidTimeout(c, t) && t.round == round
  {
    if ops != [] {
      TimeoutsForAreVerified(c, ops[..|ops| - 1], round);
    }
  }

  /**
   The aggregator has made exactly one certificate for a block if the authors of the votes on it hold a
   quorum, and none otherwise, whatever other messages came in between and whatever older rounds were
   cleaned up.
   */
  lemma {:induction false} AggregatorCertifiesAtQuorum(c: Committee, ops: seq<Operation>, hash: Digest, round: Round)
    requires c.Sound() && Verified(c, ops) && Keeps(ops, round)
    ensures var made := CertificatesFor(PerformAll(c, ops).qcs, hash, round);
      && |made| == (if c.StakeOf(Authors(VotesFor(ops, hash, round))) >= c.Quorum() then 1 else 0)
      && forall qc :: qc in made ==> ValidQC(c, qc)
  {
    VotesAccumulate(c, ops, hash, round);
    VotesForAreVerified(c, ops, hash, round);
    OneCertificateAtQuorum(c, hash, round, VotesFor(ops, hash, round));
  }

  /** The same for the time-outs of one round. */
  lemma {:induction false} AggregatorCertifiesTimeoutsAtQuorum(c: Committee, ops: seq<Operation>, round: Round)
    requires c.Sound() && Verified(c, ops) && Keeps(ops, round)
    ensures var made := TimeoutCertificatesFor(PerformAll(c, ops).tcs, round);
      && |made| == (if c.StakeOf(TimeoutAuthors(TimeoutsFor(ops, round))) >= c.Quorum() then 1 else 0)
      && forall tc :: tc in made ==> ValidTC(c, tc)
  {
    TimeoutsAccumulate(c, ops, round);
    TimeoutsForAreVerified(c, ops, round);
    OneTimeoutCertificateAtQuorum(c, round, TimeoutsFor(ops, round));
  }

  /** A vote is refused exactly if its author voted on the block before; otherwise it makes the certificate or none. */
  lemma {:induction false} RepeatedVoteIsRefused(c: Committee, ops: seq<Operation>, v: Vote)
    requires c.Sound() && Verified(c, ops) && Keeps(ops, v.round)
    ensures var r := WithVote(c, PerformAll(c, ops).state, v).1;
      && (r == Failure(AuthorityReuse(v.author)) <==> v.author in Authors(VotesFor(ops, v.hash, v.round)))
      && (r.Failure? ==> r == Failure(AuthorityReuse(v.author)))
  {
    VotesAccumulate(c, ops, v.hash, v.round);
    VotesForAreVerified(c, ops, v.hash, v.round);
    OneCertificateAtQuorum(c, v.hash, v.round, VotesFor(ops, v.hash, v.round));
  }

  /** The same for time-outs. */
  lemma {:induction false} RepeatedTimeoutIsRefused(c: Committee, ops: seq<Operation>, t: Timeout)
    requires c.Sound() && Verified(c, ops) && Keeps(ops, t.round)
    ensures var r := WithTimeout(c, PerformAll(c, ops).state, t).1;
      && (r == Failure(AuthorityReuse(t.author)) <==> t.author in TimeoutAuthors(TimeoutsFor(ops, t.round)))
      && (r.Failure? ==> r == Failure(AuthorityReuse(t.author)))
  {
    TimeoutsAccumulate(c, ops, t.round);
    TimeoutsForAreVerified(c, ops, t.round);
    OneTimeoutCertificateAtQuorum(c, t.round, TimeoutsFor(ops, t.round));
  }

  /** A clean-up leaves exactly the makers of rounds that are not below the given one. */
  lemma CleaningForgetsExactly(c: Committee, ops: seq<Operation>, round: Round)
    ensures var before, after := PerformAll(c, ops).state, PerformAll(c, ops + [CleansUp(round)]).state;
      && (forall hash, r: Round :: MakerOf(after, hash, r) == if r < round then NO_VOTES else MakerOf(before, hash, r))
      && (forall r: Round :: TimeoutMakerOf(after, r) == if r < round then NO_TIMEOUTS else TimeoutMakerOf(before, r))
  {
    assert (ops + [CleansUp(round)])[..|ops|] == ops;
  }
}

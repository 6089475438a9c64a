/**
 Collecting votes and timeouts into quorum and timeout certificates.
 */
module Aggregators {
  import opened Wrappers
  import opened Committees
  import opened Messages

  datatype QCMakerState = QCMakerState(weight: nat, votes: seq<QCVote>, used: set<PublicKey>) {
    function Names(): seq<PublicKey> {
      seq(|votes|, i requires 0 <= i < |votes| => votes[i].author)
    }
  }

  datatype TCMakerState = TCMakerState(weight: nat, votes: seq<TCVote>, used: set<PublicKey>) {
    function Names(): seq<PublicKey> {
      seq(|votes|, i requires 0 <= i < |votes| => votes[i].author)
    }
  }

  /** The makers by the digest of the votes they collect, and by round. */
  datatype AggregatorState = AggregatorState(qcs: map<Statement, QCMakerState>, tcs: map<Round, TCMakerState>)

  const NO_VOTES := QCMakerState(0, [], {})
  const NO_TIMEOUTS := TCMakerState(0, [], {})

  // What the operations compute

  ghost function AppendVote(c: Committee, m: QCMakerState, v: Vote)
    : (QCMakerState, Result<Option<QC>, ConsensusError>)
  {
    if v.author in m.used then (m, Failure(AuthorityReuse(v.author)))
    else
      var weight := m.weight + c.Stake(v.author);
      var votes := m.votes + [QCVote(v.author, v.signature)];
      if weight >= c.Quorum() then
        (QCMakerState(0, votes, m.used + {v.author}), Success(Some(QC(v.hash, v.round, votes))))
      else
        (QCMakerState(weight, votes, m.used + {v.author}), Success(None))
  }

  ghost function AppendTimeout(c: Committee, m: TCMakerState, t: Timeout)
    : (TCMakerState, Result<Option<TC>, ConsensusError>)
  {
    if t.author in m.used then (m, Failure(AuthorityReuse(t.author)))
    else
      var weight := m.weight + c.Stake(t.author);
      var votes := m.votes + [TCVote(t.author, t.signature, t.highQcRound)];
      if weight >= c.Quorum() then
        (TCMakerState(0, votes, m.used + {t.author}), Success(Some(TC(t.round, votes))))
      else
        (TCMakerState(weight, votes, m.used + {t.author}), Success(None))
  }

  ghost function WithVote(c: Committee, a: AggregatorState, v: Vote)
    : (AggregatorState, Result<Option<QC>, ConsensusError>)
  {
    var key := VoteStatement(v.hash, v.round);
    var (maker, r) := AppendVote(c, if key in a.qcs then a.qcs[key] else NO_VOTES, v);
    (a.(qcs := a.qcs[key := maker]), r)
  }

  ghost function WithTimeout(c: Committee, a: AggregatorState, t: Timeout)
    : (AggregatorState, Result<Option<TC>, ConsensusError>)
  {
    var (maker, r) := AppendTimeout(c, if t.round in a.tcs then a.tcs[t.round] else NO_TIMEOUTS, t);
    (a.(tcs := a.tcs[t.round := maker]), r)
  }

  ghost function WithVotesMaker(a: AggregatorState, key: Statement): AggregatorState {
    if key in a.qcs then a else a.(qcs := a.qcs[key := NO_VOTES])
  }

  ghost function WithTimeoutsMaker(a: AggregatorState, round: Round): AggregatorState {
    if round in a.tcs then a else a.(tcs := a.tcs[round := NO_TIMEOUTS])
  }

  lemma AddingVoteInSteps(c: Committee, a: AggregatorState, v: Vote)
    ensures var key := VoteStatement(v.hash, v.round);
      var entered := WithVotesMaker(a, key);
      var (maker, r) := AppendVote(c, entered.qcs[key], v);
      WithVote(c, a, v) == (entered.(qcs := entered.qcs[key := maker]), r)
  {
    var key := VoteStatement(v.hash, v.round);
    var entered := WithVotesMaker(a, key);
    var maker := AppendVote(c, entered.qcs[key], v).0;
    assert entered.qcs[key := maker] == a.qcs[key := maker];
  }

  lemma AddingTimeoutInSteps(c: Committee, a: AggregatorState, t: Timeout)
    ensures var entered := WithTimeoutsMaker(a, t.round);
      var (maker, r) := AppendTimeout(c, entered.tcs[t.round], t);
      WithTimeout(c, a, t) == (entered.(tcs := entered.tcs[t.round := maker]), r)
  {
    var entered := WithTimeoutsMaker(a, t.round);
    var maker := AppendTimeout(c, entered.tcs[t.round], t).0;
    assert entered.tcs[t.round := maker] == a.tcs[t.round := maker];
  }

  ghost function CleanedUp(a: AggregatorState, round: Round): AggregatorState {
    AggregatorState(
      map k | k in a.qcs && k.VoteStatement? && k.round >= round :: a.qcs[k],
      map k | k in a.tcs && k >= round :: a.tcs[k])
  }

  // The imperative makers

  class QCMaker {
    var weight: nat
    var votes: seq<QCVote>
    var used: set<PublicKey>

    ghost function State(): QCMakerState
      reads this
    {
      QCMakerState(weight, votes, used)
    }

    constructor ()
      ensures State() == NO_VOTES
    {
      weight, votes, used := 0, [], {};
    }

    method Append(vote: Vote, committee: Committee) returns (r: Result<Option<QC>, ConsensusError>)
      modifies this
      ensures (State(), r) == AppendVote(committee, old(State()), vote)
    {
      var author := vote.author;
      if author in used {
        return Failure(AuthorityReuse(author));
      }
      used := used + {author};
      votes := votes + [QCVote(author, vote.signature)];
      weight := weight + committee.Stake(author);
      var threshold := committee.QuorumThreshold();
      if weight >= threshold {
        weight := 0;
        return Success(Some(QC(vote.hash, vote.round, votes)));
      }
      return Success(None);
    }
  }

  class TCMaker {
    var weight: nat
    var votes: seq<TCVote>
    var used: set<PublicKey>

    ghost function State(): TCMakerState
      reads this
    {
      TCMakerState(weight, votes, used)
    }

    constructor ()
      ensures State() == NO_TIMEOUTS
    {
      weight, votes, used := 0, [], {};
    }

    method Append(timeout: Timeout, committee: Committee) returns (r: Result<Option<TC>, ConsensusError>)
      modifies this
      ensures (State(), r) == AppendTimeout(committee, old(State()), timeout)
    {
      var author := timeout.author;
      if author in used {
        return Failure(AuthorityReuse(author));
      }
      used := used + {author};
      votes := votes + [TCVote(author, timeout.signature, timeout.highQcRound)];
      weight := weight + committee.Stake(author);
      var threshold := committee.QuorumThreshold();
      if weight >= threshold {
        weight := 0;
        return Success(Some(TC(timeout.round, votes)));
      }
      return Success(None);
    }
  }

  class Aggregator {
    const committee: Committee
    var votesAggregators: map<Statement, QCMaker>
    var timeoutsAggregators: map<Round, TCMaker>

    ghost function Repr(): set<object>
      reads this
    {
      {this} + votesAggregators.Values + timeoutsAggregators.Values
    }

    /** No two keys share a maker. */
    ghost predicate Valid()
      reads this
    {
      && (forall k, k' :: k in votesAggregators && k' in votesAggregators && k != k' ==>
          votesAggregators[k] != votesAggregators[k'])
      && (forall k, k' :: k in timeoutsAggregators && k' in timeoutsAggregators && k != k' ==>
          timeoutsAggregators[k] != timeoutsAggregators[k'])
    }

    ghost function State(): AggregatorState
      reads this, votesAggregators.Values, timeoutsAggregators.Values
    {
      AggregatorState(
        map k | k in votesAggregators :: votesAggregators[k].State(),
        map k | k in timeoutsAggregators :: timeoutsAggregators[k].State())
    }

    constructor (committee: Committee)
      ensures Valid() && fresh(Repr()) && this.committee == committee
      ensures State() == AggregatorState(map[], map[])
    {
      this.committee := committee;
      votesAggregators := map[];
      timeoutsAggregators := map[];
    }

    /** There is a maker for the votes with this digest, a new one if there was none. */
    method EnsureVotesMaker(key: Statement)
      requires Valid()
      modifies this`votesAggregators
      ensures Valid() && fresh(Repr() - old(Repr())) && key in votesAggregators
      ensures State() == WithVotesMaker(old(State()), key)
    {
      if key !in votesAggregators {
        var added := new QCMaker();
        votesAggregators := votesAggregators[key := added];
      }
      assert State().qcs == WithVotesMaker(old(State()), key).qcs;
      assert State().tcs == old(State()).tcs;
    }

    method EnsureTimeoutsMaker(round: Round)
      requires Valid()
      modifies this`timeoutsAggregators
      ensures Valid() && fresh(Repr() - old(Repr())) && round in timeoutsAggregators
      ensures State() == WithTimeoutsMaker(old(State()), round)
    {
      if round !in timeoutsAggregators {
        var added := new TCMaker();
        timeoutsAggregators := timeoutsAggregators[round := added];
      }
      assert State().tcs == WithTimeoutsMaker(old(State()), round).tcs;
      assert State().qcs == old(State()).qcs;
    }

    method AppendToVotesMaker(key: Statement, vote: Vote) returns (r: Result<Option<QC>, ConsensusError>)
      requires Valid() && key in votesAggregators
      modifies votesAggregators[key]
      ensures Valid()
      ensures var (maker, result) := AppendVote(committee, old(State()).qcs[key], vote);
        r == result && State() == old(State()).(qcs := old(State()).qcs[key := maker])
    {
      r := votesAggregators[key].Append(vote, committee);
      assert State().qcs == old(State()).qcs[key := votesAggregators[key].State()];
      assert State().tcs == old(State()).tcs;
    }

    method AppendToTimeoutsMaker(timeout: Timeout) returns (r: Result<Option<TC>, ConsensusError>)
      requires Valid() && timeout.round in timeoutsAggregators
      modifies timeoutsAggregators[timeout.round]
      ensures Valid()
      ensures var (maker, result) := AppendTimeout(committee, old(State()).tcs[timeout.round], timeout);
        r == result && State() == old(State()).(tcs := old(State()).tcs[timeout.round := maker])
    {
      r := timeoutsAggregators[timeout.round].Append(timeout, committee);
      assert State().tcs == old(State()).tcs[timeout.round := timeoutsAggregators[timeout.round].State()];
      assert State().qcs == old(State()).qcs;
    }

    method AddVote(vote: Vote) returns (r: Result<Option<QC>, ConsensusError>)
      requires Valid()
      modifies Repr()
      ensures Valid() && fresh(Repr() - old(Repr()))
      ensures (State(), r) == WithVote(committee, old(State()), vote)
    {
      var key := VoteStatement(vote.hash, vote.round);
      AddingVoteInSteps(committee, State(), vote);
      EnsureVotesMaker(key);
      assert votesAggregators[key] in votesAggregators.Values;
      r := AppendToVotesMaker(key, vote);
    }

    method AddTimeout(timeout: Timeout) returns (r: Result<Option<TC>, ConsensusError>)
      requires Valid()
      modifies Repr()
      ensures Valid() && fresh(Repr() - old(Repr()))
      ensures (State(), r) == WithTimeout(committee, old(State()), timeout)
    {
      AddingTimeoutInSteps(committee, State(), timeout);
      EnsureTimeoutsMaker(timeout.round);
      assert timeoutsAggregators[timeout.round] in timeoutsAggregators.Values;
      r := AppendToTimeoutsMaker(timeout);
    }

    method CleanupVotes(round: Round)
      requires Valid()
      modifies this`votesAggregators
      ensures Valid() && Repr() <= old(Repr())
      ensures State() == AggregatorState(CleanedUp(old(State()), round).qcs, old(State()).tcs)
    {
      votesAggregators :=
        map k | k in votesAggregators && k.VoteStatement? && k.round >= round :: votesAggregators[k];
      assert State().qcs == CleanedUp(old(State()), round).qcs;
    }

    method CleanupTimeouts(round: Round)
      requires Valid()
      modifies this`timeoutsAggregators
      ensures Valid() && Repr() <= old(Repr())
      ensures State() == AggregatorState(old(State()).qcs, CleanedUp(old(State()), round).tcs)
    {
      timeoutsAggregators := map k | k in timeoutsAggregators && k >= round :: timeoutsAggregators[k];
      assert State().tcs == CleanedUp(old(State()), round).tcs;
    }

    method Cleanup(round: Round)
      requires Valid()
      modifies this
      ensures Valid() && Repr() <= old(Repr())
      ensures State() == CleanedUp(old(State()), round)
    {
      CleanupVotes(round);
      CleanupTimeouts(round);
    }
  }
}

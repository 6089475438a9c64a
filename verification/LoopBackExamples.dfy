/**
 What a clean-up can do to suspended blocks: a block may come back twice, and a payload for which a
 block still waits may not be requested any more.
 */
module LoopBackExamples {
  import opened Wrappers
  import opened Messages
  import opened Mempools
  import opened HotStuffSafety
  import opened HotStuffNode
  import opened Stores
  import opened Synchronizers
  import opened NodeAssembly

  // Coming back twice

  ghost predicate MovesTo(cfg: Config, w: World, a: Assembly, c: Assembly) {
    exists move :: Enabled(cfg, w, a, move) && Moved(cfg, a, move) == c
  }

  ghost predicate Path(cfg: Config, w: World, path: seq<Assembly>) {
    path != [] && forall i :: 0 < i < |path| ==> MovesTo(cfg, w, path[i - 1], path[i])
  }

  /** Some moves lead from the one state to the other. */
  ghost predicate Leads(cfg: Config, w: World, a: Assembly, c: Assembly) {
    exists path :: Path(cfg, w, path) && path[0] == a && path[|path| - 1] == c
  }

  lemma LeadsToItself(cfg: Config, w: World, a: Assembly)
    ensures Leads(cfg, w, a, a)
  {
    assert Path(cfg, w, [a]);
  }

  lemma LeadsOn(cfg: Config, w: World, a: Assembly, c: Assembly, move: Move)
    requires Leads(cfg, w, a, c) && Enabled(cfg, w, c, move)
    ensures Leads(cfg, w, a, Moved(cfg, c, move))
  {
    var path :| Path(cfg, w, path) && path[0] == a && path[|path| - 1] == c;
    var next := Moved(cfg, c, move);
    var longer := path + [next];
    forall i | 0 < i < |longer| ensures MovesTo(cfg, w, longer[i - 1], longer[i]) {
      if i < |path| {
        assert MovesTo(cfg, w, path[i - 1], path[i]);
      }
    }
    assert Path(cfg, w, longer);
  }

  /** A leader's block whose one payload is not stored. */
  ghost predicate Misses(cfg: Config, w: World, s: NodeState, b: Block, p: PayloadDigest) {
    && b.author == cfg.leader(b.round) && ValidBlock(cfg.committee, b) && GenuineBlock(w, b)
    && b.payload == [p] && p !in s.mempool.stored
  }

  lemma ProposalWaits(cfg: Config, w: World, s: NodeState, b: Block, p: PayloadDigest)
    requires Misses(cfg, w, s, b, p)
    ensures var t := HandleProposal(cfg, s, b);
      t.suspensions == s.suspensions + [AwaitsPayload(b, {p})] && t.blocks == s.blocks && t.mempool == s.mempool
  {
    assert p in b.payload;
    assert Missing(s.mempool, b.payload) == {p};
  }

  lemma OneAwaitsPayload(b: Block, missing: set<PayloadDigest>)
    ensures var more := [AwaitsPayload(b, missing)];
      ToParents(more) == [] && ToPayloads(more) == [Sync(missing, b)] && ToCore(more) == multiset{}
  {
    assert [AwaitsPayload(b, missing)][..0] == [];
  }

  lemma ProposedOnceMore(cfg: Config, w: World, a: Assembly, c: Assembly, b: Block, p: PayloadDigest)
    returns (d: Assembly)
    requires Leads(cfg, w, a, c) && Misses(cfg, w, c.node, b, p)
    ensures Leads(cfg, w, a, d) && Misses(cfg, w, d.node, b, p)
    ensures d == c.(node := d.node, payloads := c.payloads.(inbox := c.payloads.inbox + [Sync({p}, b)]))
  {
    var move := CoreReacts(Stimulus(Propose(b), None), []);
    ProposalWaits(cfg, w, c.node, b, p);
    var t := HandleProposal(cfg, c.node, b);
    assert forall key :: InStore(t, key) <==> InStore(c.node, key);
    d := Moved(cfg, c, move);
    assert t.suspensions[|c.node.suspensions|..] == [AwaitsPayload(b, {p})];
    OneAwaitsPayload(b, {p});
    assert c.history + [] == c.history && c.parents.inbox + [] == c.parents.inbox;
    LeadsOn(cfg, w, a, c, move);
  }

  /** One waiter, whose block is pending or was forgotten by a clean-up. */
  function Once(b: Block, p: PayloadDigest, inbox: seq<SynchronizerMessage>, pending: bool): PayloadState {
    PayloadState(inbox, if pending then map[b.Digest() := Pending(b.round, 0)] else map[], {Waiter(0, b, {p})},
                 if pending then map[p := b.round] else map[], 1)
  }

  /** The two waiters that result from handing the block over before and after a clean-up. */
  function Twice(b: Block, p: PayloadDigest): PayloadState {
    PayloadState([], map[b.Digest() := Pending(b.round, 1)], {Waiter(0, b, {p}), Waiter(1, b, {p})},
                 map[p := b.round], 2)
  }

  lemma FirstHandled(b: Block, p: PayloadDigest, rest: seq<SynchronizerMessage>)
    ensures HandleMessage(NO_PAYLOAD_AWAITED.(inbox := rest), Sync({p}, b)) == Once(b, p, rest, true)
  {
  }

  lemma CleanHandled(b: Block, p: PayloadDigest, rest: seq<SynchronizerMessage>)
    ensures HandleMessage(Once(b, p, rest, true), Clean(b.round)) == Once(b, p, rest, false)
  {
  }

  lemma SecondHandled(b: Block, p: PayloadDigest)
    ensures HandleMessage(Once(b, p, [], false), Sync({p}, b)) == Twice(b, p)
  {
  }

  lemma ReceivedTwice(cfg: Config, w: World, a: Assembly, c: Assembly, b: Block, p: PayloadDigest) returns (d: Assembly)
    requires Leads(cfg, w, a, c)
    requires c.payloads == NO_PAYLOAD_AWAITED.(inbox := [Sync({p}, b), Clean(b.round), Sync({p}, b)])
    ensures Leads(cfg, w, a, d) && d == c.(payloads := Twice(b, p))
  {
    FirstHandled(b, p, [Clean(b.round), Sync({p}, b)]);
    d := Received(cfg, w, a, c, Once(b, p, [Clean(b.round), Sync({p}, b)], true));
    CleanHandled(b, p, [Sync({p}, b)]);
    d := Received(cfg, w, a, d, Once(b, p, [Sync({p}, b)], false));
    SecondHandled(b, p);
    d := Received(cfg, w, a, d, Twice(b, p));
  }

  lemma Received(cfg: Config, w: World, a: Assembly, c: Assembly, payloads: PayloadState) returns (d: Assembly)
    requires Leads(cfg, w, a, c) && c.payloads.inbox != []
    requires HandleMessage(c.payloads.(inbox := c.payloads.inbox[1..]), c.payloads.inbox[0]) == payloads
    ensures Leads(cfg, w, a, d) && d == c.(payloads := payloads)
  {
    d := Moved(cfg, c, PayloadReceived);
    LeadsOn(cfg, w, a, c, PayloadReceived);
  }

  lemma PayloadCame(cfg: Config, w: World, a: Assembly, c: Assembly, p: PayloadDigest) returns (d: Assembly)
    requires Leads(cfg, w, a, c)
    ensures Leads(cfg, w, a, d)
    ensures d == c.(node := d.node, history := c.history + [Command.Write(PayloadKey(p), 0)])
  {
    var write := Command.Write(PayloadKey(p), 0);
    var move := CoreReacts(Stimulus(PayloadArrives(p, false, false), None), [write]);
    var t := React(cfg, c.node, move.x);
    assert t.suspensions[|c.node.suspensions|..] == [];
    assert forall key :: InStore(t, key) <==> InStore(c.node, key) || key == PayloadKey(p);
    assert Writes([write], PayloadKey(p)) by {
      assert write in [write];
    }
    d := Moved(cfg, c, move);
    assert c.parents.inbox + [] == c.parents.inbox && c.payloads.inbox + [] == c.payloads.inbox;
    LeadsOn(cfg, w, a, c, move);
  }

  lemma AskedAndAnswered(cfg: Config, w: World, a: Assembly, c: Assembly, waiter: Waiter, p: PayloadDigest)
    returns (d: Assembly)
    requires Leads(cfg, w, a, c) && waiter in c.payloads.waiting && waiter.missing == {p}
    requires PayloadKey(p) in ExecuteAll(c.history).db
    ensures Leads(cfg, w, a, d) && PayloadKey(p) in ExecuteAll(d.history).db
    ensures d == c.(payloads := PayloadArrived(c.payloads, waiter), toCore := c.toCore + multiset{waiter.block},
                    history := d.history)
  {
    var c1 := Moved(cfg, c, PayloadAsked(waiter, p));
    LeadsOn(cfg, w, a, c, PayloadAsked(waiter, p));
    StoredGrows(c.history, [NotifyRead(PayloadKey(p), PayloadReader(waiter.id))], PayloadKey(p));
    RepliedIffAskedAndStored(c1.history, PayloadKey(p), PayloadReader(waiter.id));
    d := Moved(cfg, c1, PayloadResumed(waiter));
    LeadsOn(cfg, w, a, c1, PayloadResumed(waiter));
  }

  /**
   From any state in which nothing is suspended: a proposal that misses its payload and comes again after
   a clean-up of its round is handed over twice and comes back twice.
   */
  lemma CanComeBackTwice(cfg: Config, w: World, a: Assembly, b: Block, p: PayloadDigest) returns (c: Assembly)
    requires a.payloads == NO_PAYLOAD_AWAITED && a.toCore == multiset{} && Misses(cfg, w, a.node, b, p)
    ensures Leads(cfg, w, a, c) && c.toCore == multiset{b, b}
  {
    LeadsToItself(cfg, w, a);
    c := ProposedOnceMore(cfg, w, a, a, b, p);
    LeadsOn(cfg, w, a, c, CleanSent(b.round));
    c := Moved(cfg, c, CleanSent(b.round));
    c := ProposedOnceMore(cfg, w, a, c, b, p);
    c := ReceivedTwice(cfg, w, a, c, b, p);
    c := PayloadCame(cfg, w, a, c, p);
    var write := [Command.Write(PayloadKey(p), 0)];
    assert Writes(write, PayloadKey(p)) by {
      assert write[0] in write;
    }
    StoredGrows(a.history, write, PayloadKey(p));
    c := AskedAndAnswered(cfg, w, a, c, Waiter(0, b, {p}), p);
    c := AskedAndAnswered(cfg, w, a, c, Waiter(1, b, {p}), p);
  }

  // Requests that a clean-up forgets

  /** Whatever a block that is pending still misses is requested. */
  predicate AllRequested(s: PayloadState, stored: set<PayloadDigest>) {
    forall w, p :: w in s.waiting && Live(s, w) && p in w.missing ==> p in stored || p in s.requests
  }

  /** Whatever a block of a later round misses was first requested for a later round. */
  predicate AllRequestedLater(s: PayloadState, round: Round, stored: set<PayloadDigest>) {
    forall w, p :: w in s.waiting && Live(s, w) && s.pending[w.block.Digest()].round > round && p in w.missing ==>
      p in stored || (p in s.requests && s.requests[p] > round)
  }

  /** A clean-up leaves all requests that are needed if and only if each was made for a later round. */
  lemma CleaningKeepsRequestsIff(s: PayloadState, round: Round, stored: set<PayloadDigest>)
    requires AllRequested(s, stored)
    ensures AllRequested(HandleMessage(s, Clean(round)), stored) <==> AllRequestedLater(s, round, stored)
  {
    var t := HandleMessage(s, Clean(round));
    forall w | w in s.waiting
      ensures Live(t, w) <==> Live(s, w) && s.pending[w.block.Digest()].round > round
    {
    }
  }

  /** Two blocks miss one payload; cleaning up the first one's round forgets the request of the second one. */
  lemma RequestCanBeForgotten(b: Block, later: Block, p: PayloadDigest)
    requires b.round < later.round
    ensures var s := HandleMessage(HandleMessage(NO_PAYLOAD_AWAITED, Sync({p}, b)), Sync({p}, later));
      AllRequested(s, {}) && !AllRequested(HandleMessage(s, Clean(b.round)), {})
  {
    var s := HandleMessage(HandleMessage(NO_PAYLOAD_AWAITED, Sync({p}, b)), Sync({p}, later));
    var w := Waiter(1, later, {p});
    assert b.Digest() != later.Digest();
    assert w in s.waiting && Live(s, w) && p in w.missing;
    assert s.requests[p] == b.round;
    CleaningKeepsRequestsIff(s, b.round, {});
  }
}

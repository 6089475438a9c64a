/**
 Requests to other nodes are open only for what some block still waits for.
 */
module OpenRequests {
  import opened Committees
  import opened Messages
  import opened HotStuffSafety
  import opened HotStuffNode
  import opened Synchronizers
  import opened NodeAssembly
  import opened AssemblyRuns

  // Parents

  ghost predicate ParentIsAwaited(s: ParentState, d: Digest) {
    exists w :: w in s.waiting && w.block.qc.hash == d
  }

  ghost predicate ParentRequestsAwaited(s: ParentState) {
    forall d :: d in s.requests ==> ParentIsAwaited(s, d)
  }

  lemma AwaitingKeepsParentRequests(s: ParentState, b: Block)
    requires ParentRequestsAwaited(s)
    ensures ParentRequestsAwaited(AwaitParent(s, b))
  {
    var t := AwaitParent(s, b);
    if b.Digest() !in s.pending {
      assert ParentWaiter(s.nextId, b) in t.waiting;
      forall d | d in t.requests ensures ParentIsAwaited(t, d) {
        if d != b.qc.hash {
          assert ParentIsAwaited(s, d);
          var w :| w in s.waiting && w.block.qc.hash == d;
          assert w in t.waiting;
        }
      }
    }
  }

  /** With a parent its request is settled, also for the other blocks on it. */
  lemma ArrivalKeepsParentRequests(s: ParentState, w: ParentWaiter)
    requires ParentRequestsAwaited(s) && w in s.waiting
    ensures ParentRequestsAwaited(ParentArrived(s, w))
  {
    var t := ParentArrived(s, w);
    forall d | d in t.requests ensures ParentIsAwaited(t, d) {
      assert ParentIsAwaited(s, d);
      var u :| u in s.waiting && u.block.qc.hash == d;
      assert u in t.waiting;
    }
  }

  // Payload

  ghost predicate PayloadIsAwaited(s: PayloadState, p: PayloadDigest, round: Round) {
    exists w :: w in s.waiting && Live(s, w) && p in w.missing && s.pending[w.block.Digest()].round == round
  }

  ghost predicate RequestsAwaited(s: PayloadState) {
    forall p :: p in s.requests ==> PayloadIsAwaited(s, p, s.requests[p])
  }

  predicate MissPayloadOnly(s: PayloadState) {
    forall w, p :: w in s.waiting && p in w.missing ==> p in w.block.payload
  }

  /** Requests that stay open are awaited if their waiters stay live. */
  lemma RequestsStayAwaited(s: PayloadState, t: PayloadState)
    requires RequestsAwaited(s)
    requires forall p :: p in t.requests ==> p in s.requests && t.requests[p] == s.requests[p]
    requires forall w, p :: w in s.waiting && Live(s, w) && p in w.missing && p in t.requests
                            && s.pending[w.block.Digest()].round == s.requests[p] ==>
               w in t.waiting && Live(t, w) && t.pending[w.block.Digest()] == s.pending[w.block.Digest()]
    ensures RequestsAwaited(t)
  {
    forall p | p in t.requests ensures PayloadIsAwaited(t, p, t.requests[p]) {
      assert PayloadIsAwaited(s, p, s.requests[p]);
      var w :| w in s.waiting && Live(s, w) && p in w.missing && s.pending[w.block.Digest()].round == s.requests[p];
      assert w in t.waiting && Live(t, w);
    }
  }

  lemma SyncKeepsRequestsAwaited(s: PayloadState, missing: set<PayloadDigest>, b: Block)
    requires RequestsAwaited(s)
    ensures RequestsAwaited(HandleMessage(s, Sync(missing, b)))
  {
    var t := HandleMessage(s, Sync(missing, b));
    if b.Digest() !in s.pending {
      forall p | p in t.requests ensures PayloadIsAwaited(t, p, t.requests[p]) {
        if p in s.requests {
          assert PayloadIsAwaited(s, p, s.requests[p]);
          var w :| w in s.waiting && Live(s, w) && p in w.missing && s.pending[w.block.Digest()].round == s.requests[p];
          assert w in t.waiting && Live(t, w);
        } else {
          assert Waiter(s.nextId, b, missing) in t.waiting && Live(t, Waiter(s.nextId, b, missing));
        }
      }
    }
  }

  lemma CleanKeepsRequestsAwaited(s: PayloadState, round: Round)
    requires RequestsAwaited(s)
    ensures RequestsAwaited(HandleMessage(s, Clean(round)))
  {
    RequestsStayAwaited(s, HandleMessage(s, Clean(round)));
  }

  /** With a block's payload all its requests are settled, also those that other blocks wait for. */
  lemma ArrivalKeepsRequestsAwaited(s: PayloadState, w: Waiter)
    requires RequestsAwaited(s) && MissPayloadOnly(s) && w in s.waiting
    ensures RequestsAwaited(PayloadArrived(s, w))
  {
    RequestsStayAwaited(s, PayloadArrived(s, w));
  }

  lemma GivingUpKeepsRequestsAwaited(s: PayloadState, w: Waiter)
    requires RequestsAwaited(s) && !Live(s, w)
    ensures RequestsAwaited(GivenUp(s, w))
  {
    RequestsStayAwaited(s, GivenUp(s, w));
  }

  // Runs

  ghost predicate RequestsOk(a: Assembly) {
    ParentRequestsAwaited(a.parents) && RequestsAwaited(a.payloads)
  }

  lemma InboxKeepsRequestsAwaited(s: PayloadState, inbox: seq<SynchronizerMessage>)
    requires RequestsAwaited(s)
    ensures RequestsAwaited(s.(inbox := inbox))
  {
    RequestsStayAwaited(s, s.(inbox := inbox));
  }

  lemma InboxKeepsParentRequests(s: ParentState, inbox: seq<Block>)
    requires ParentRequestsAwaited(s)
    ensures ParentRequestsAwaited(s.(inbox := inbox))
  {
    forall d | d in s.requests ensures ParentIsAwaited(s.(inbox := inbox), d) {
      assert ParentIsAwaited(s, d);
    }
  }

  lemma MissingIsPayload(a: Assembly)
    requires AssemblyOk(a)
    ensures MissPayloadOnly(a.payloads)
  {
    forall w | w in a.payloads.waiting ensures forall p :: p in w.missing ==> p in w.block.payload {
      assert Awaited(a.node, w.missing, w.block);
    }
  }

  lemma MoveKeepsRequests(cfg: Config, w: World, a: Assembly, move: Move)
    requires AssemblyOk(a) && RequestsOk(a) && Enabled(cfg, w, a, move)
    ensures RequestsOk(Moved(cfg, a, move))
  {
    var c := Moved(cfg, a, move);
    match move
    case CoreReacts(_, _) =>
      InboxKeepsParentRequests(a.parents, c.parents.inbox);
      InboxKeepsRequestsAwaited(a.payloads, c.payloads.inbox);
    case ParentReceived =>
      InboxKeepsParentRequests(a.parents, a.parents.inbox[1..]);
      AwaitingKeepsParentRequests(a.parents.(inbox := a.parents.inbox[1..]), a.parents.inbox[0]);
    case ParentResumed(pw) => ArrivalKeepsParentRequests(a.parents, pw);
    case PayloadReceived => ReceivingKeepsRequests(a.payloads);
    case PayloadResumed(waiter) =>
      MissingIsPayload(a);
      ArrivalKeepsRequestsAwaited(a.payloads, waiter);
    case PayloadGivenUp(waiter) => GivingUpKeepsRequestsAwaited(a.payloads, waiter);
    case CleanSent(_) => InboxKeepsRequestsAwaited(a.payloads, c.payloads.inbox);
    case _ =>
  }

  lemma ReceivingKeepsRequests(s: PayloadState)
    requires RequestsAwaited(s) && s.inbox != []
    ensures RequestsAwaited(HandleMessage(s.(inbox := s.inbox[1..]), s.inbox[0]))
  {
    InboxKeepsRequestsAwaited(s, s.inbox[1..]);
    match s.inbox[0]
    case Sync(missing, b) => SyncKeepsRequestsAwaited(s.(inbox := s.inbox[1..]), missing, b);
    case Clean(round) => CleanKeepsRequestsAwaited(s.(inbox := s.inbox[1..]), round);
  }

  lemma StepKeepsRequests(cfg: Config, g: Assemblies, g': Assemblies, h: PublicKey)
    requires AssemblyRuns.Step(cfg, g, g') && h in g && AssemblyOk(g[h]) && RequestsOk(g[h])
    ensures h in g' && RequestsOk(g'[h])
  {
    var k, move :| AssemblyRuns.StepBy(cfg, g, g', k, move);
    if k == h {
      MoveKeepsRequests(cfg, Protocol.WorldOf(NodesOf(g)), g[h], move);
    }
  }

  lemma StepOfRunKeepsRequests(cfg: Config, run: seq<Assemblies>, i: nat, h: PublicKey)
    requires AssemblyRuns.Run(cfg, run) && i + 1 < |run| && h in run[i] && RequestsOk(run[i][h])
    ensures h in run[i + 1] && RequestsOk(run[i + 1][h])
  {
    RunKeepsOk(cfg, run, i);
    assert AssemblyRuns.Step(cfg, run[i], run[i + 1]);
    StepKeepsRequests(cfg, run[i], run[i + 1], h);
  }

  lemma {:induction false} RunKeepsRequests(cfg: Config, run: seq<Assemblies>, i: nat, h: PublicKey)
    requires AssemblyRuns.Run(cfg, run) && i < |run| && h in run[0]
    ensures h in run[i] && RequestsOk(run[i][h])
  {
    if i == 0 {
      assert Booted(cfg, h, run[0][h]);
    } else {
      RunKeepsRequests(cfg, run, i - 1, h);
      StepOfRunKeepsRequests(cfg, run, i - 1, h);
    }
  }

  /** In every reachable state every open request is for the parent, or the payload, that some block waits for. */
  lemma OnlyAwaitedIsRequested(cfg: Config, run: seq<Assemblies>, i: nat, h: PublicKey)
    requires AssemblyRuns.Run(cfg, run) && i < |run| && h in run[0]
    ensures h in run[i]
    ensures forall d :: d in run[i][h].parents.requests ==> ParentIsAwaited(run[i][h].parents, d)
    ensures forall p :: p in run[i][h].payloads.requests ==>
      PayloadIsAwaited(run[i][h].payloads, p, run[i][h].payloads.requests[p])
  {
    RunKeepsRequests(cfg, run, i, h);
  }
}

/**
 The synchronizers as the program has them: objects that hand blocks to their tasks, whose waiters ask
 the store and loop a block back when the store has answered.
 */
module SynchronizerTasks {
  import opened Wrappers
  import opened Messages
  import opened Stores
  import opened Synchronizers

  class ParentSynchronizer {
    const store: Store
    var inbox: seq<Block>
    var pending: set<Digest>
    var waiting: set<ParentWaiter>
    var requests: set<Digest>
    var nextId: nat
    var loopedBack: seq<Block>

    function State(): ParentState
      reads this
    {
      ParentState(inbox, pending, waiting, requests, nextId)
    }

    constructor (store: Store)
      ensures this.store == store && State() == NO_PARENTS_AWAITED && loopedBack == []
    {
      this.store := store;
      inbox, pending, waiting, requests, nextId, loopedBack := [], {}, {}, {}, 0, [];
    }

    method GetParentBlock(block: Block) returns (parent: Option<Value>)
      requires !block.qc.IsGenesis()
      modifies this`inbox
      ensures parent == if BlockKey(block.qc.hash) in store.db then Some(store.db[BlockKey(block.qc.hash)]) else None
      ensures State() == if parent.Some? then old(State()) else old(State()).(inbox := old(inbox) + [block])
    {
      parent := store.Read(BlockKey(block.qc.hash));
      if parent.None? {
        inbox := inbox + [block];
      }
    }

    method Receive() returns (request: Option<Digest>)
      requires inbox != [] && ParentsOk(State())
      modifies this
      ensures ParentsOk(State()) && loopedBack == old(loopedBack)
      ensures State() == AwaitParent(old(State()).(inbox := old(inbox)[1..]), old(inbox)[0])
      ensures request == ParentRequest(old(State()), old(inbox)[0])
    {
      var block := inbox[0];
      inbox := inbox[1..];
      request := Await(block);
    }

    method Await(block: Block) returns (request: Option<Digest>)
      requires ParentsOk(State())
      modifies `pending, `waiting, `requests, `nextId
      ensures ParentsOk(State()) && State() == AwaitParent(old(State()), block)
      ensures request == ParentRequest(old(State()), block)
    {
      AwaitParentKeepsOk(State(), block);
      request := None;
      if block.Digest() !in pending {
        pending := pending + {block.Digest()};
        waiting := waiting + {ParentWaiter(nextId, block)};
        nextId := nextId + 1;
        if block.qc.hash !in requests {
          requests := requests + {block.qc.hash};
          request := Some(block.qc.hash);
        }
        assert old(requests) + {block.qc.hash} == requests;
      }
    }

    /** The waiter begins to wait. */
    method Ask(w: ParentWaiter)
      modifies store
      ensures store.State() ==
        Execute(old(store.State()), Command.NotifyRead(BlockKey(w.block.qc.hash), ParentReader(w.id)))
    {
      store.NotifyRead(BlockKey(w.block.qc.hash), ParentReader(w.id));
    }

    /** The store has answered the waiter: by then the parent is stored, as the store's history shows. */
    method Resume(w: ParentWaiter, ghost history: seq<Command>)
      requires w in waiting && ParentsOk(State())
      requires store.State() == ExecuteAll(history)
      requires HasReply(store.State(), BlockKey(w.block.qc.hash), ParentReader(w.id))
      modifies this
      ensures ParentsOk(State()) && State() == ParentArrived(old(State()), w)
      ensures loopedBack == old(loopedBack) + [w.block] && BlockKey(w.block.qc.hash) in store.db
    {
      RepliedIffAskedAndStored(history, BlockKey(w.block.qc.hash), ParentReader(w.id));
      ParentArrivedKeepsOk(State(), w);
      pending := pending - {w.block.Digest()};
      waiting := waiting - {w};
      requests := requests - {w.block.qc.hash};
      loopedBack := loopedBack + [w.block];
    }
  }

  function StoredPayload(s: StoreState): set<PayloadDigest> {
    set k | k in s.db && k.PayloadKey? :: k.payload
  }

  class PayloadSynchronizer {
    const store: Store
    var inbox: seq<SynchronizerMessage>
    var pending: map<Digest, Pending>
    var waiting: set<Waiter>
    var requests: map<PayloadDigest, Round>
    var nextId: nat
    var loopedBack: seq<Block>

    function State(): PayloadState
      reads this
    {
      PayloadState(inbox, pending, waiting, requests, nextId)
    }

    constructor (store: Store)
      ensures this.store == store && State() == NO_PAYLOAD_AWAITED && loopedBack == []
    {
      this.store := store;
      inbox, pending, waiting, requests, nextId, loopedBack := [], map[], {}, map[], 0, [];
    }

    /** A block is accepted at once if nothing is missing, and otherwise handed over with what is missing. */
    method VerifyPayload(block: Block) returns (accepted: bool)
      modifies this`inbox
      ensures accepted <==> forall p :: p in block.payload ==> PayloadKey(p) in store.db
      ensures accepted ==> inbox == old(inbox)
      ensures !accepted ==> exists missing :: inbox == old(inbox) + [Sync(missing, block)]
                                              && missing == set p | p in block.payload && PayloadKey(p) !in store.db
    {
      var missing: set<PayloadDigest> := {};
      for i := 0 to |block.payload|
        invariant inbox == old(inbox)
        invariant missing == set p | p in block.payload[..i] && PayloadKey(p) !in store.db
      {
        assert block.payload[..i + 1] == block.payload[..i] + [block.payload[i]];
        var bytes := store.Read(PayloadKey(block.payload[i]));
        if bytes.None? {
          missing := missing + {block.payload[i]};
        }
      }
      assert block.payload[..|block.payload|] == block.payload;
      if missing == {} {
        assert forall p :: p in block.payload && PayloadKey(p) !in store.db ==> p in missing;
        return true;
      }
      inbox := inbox + [Sync(missing, block)];
      return false;
    }

    method Receive() returns (requested: set<PayloadDigest>)
      requires inbox != [] && PendingOk(State())
      modifies this
      ensures PendingOk(State()) && loopedBack == old(loopedBack)
      ensures State() == HandleMessage(old(State()).(inbox := old(inbox)[1..]), old(inbox)[0])
      ensures requested == if old(inbox)[0].Sync? then PayloadRequests(old(State()), old(inbox)[0]) else {}
    {
      var message := inbox[0];
      inbox := inbox[1..];
      HandleMessageKeepsPending(State(), message);
      requested := {};
      match message
      case Sync(missing, block) => requested := HandleSync(missing, block);
      case Clean(round) => HandleClean(round);
    }

    method HandleSync(missing: set<PayloadDigest>, block: Block) returns (requested: set<PayloadDigest>)
      modifies `pending, `waiting, `requests, `nextId
      ensures State() == HandleMessage(old(State()), Sync(missing, block))
      ensures requested == PayloadRequests(old(State()), Sync(missing, block))
    {
      if block.Digest() in pending {
        return {};
      }
      pending := pending[block.Digest() := Pending(block.round, nextId)];
      waiting := waiting + {Waiter(nextId, block, missing)};
      nextId := nextId + 1;
      requested := missing - requests.Keys;
      requests := requests + map p | p in requested :: block.round;
    }

    method HandleClean(round: Round)
      modifies `pending, `requests
      ensures State() == HandleMessage(old(State()), Clean(round))
      ensures forall d :: d in pending <==> d in old(pending) && old(pending)[d].round > round
      ensures forall p :: p in requests <==> p in old(requests) && old(requests)[p] > round
    {
      pending := map d | d in pending && pending[d].round > round :: pending[d];
      requests := map p | p in requests && requests[p] > round :: requests[p];
    }

    /** The waiter begins to wait for one of the missing payloads. */
    method Ask(w: Waiter, p: PayloadDigest)
      modifies store
      ensures store.State() == Execute(old(store.State()), Command.NotifyRead(PayloadKey(p), PayloadReader(w.id)))
    {
      store.NotifyRead(PayloadKey(p), PayloadReader(w.id));
    }

    /**
     The store has answered for all that a waiter waits for, which may have been cancelled meanwhile: by
     then the block's whole payload is stored, as the store's history shows.
     */
    method Resume(w: Waiter, ghost history: seq<Command>)
      requires w in waiting && PendingOk(State())
      requires store.State() == ExecuteAll(history)
      requires WaitsForMissing(w.missing, w.block, StoredPayload(store.State()))
      requires forall p :: p in w.missing ==> HasReply(store.State(), PayloadKey(p), PayloadReader(w.id))
      modifies this
      ensures PendingOk(State()) && State() == PayloadArrived(old(State()), w)
      ensures loopedBack == old(loopedBack) + [w.block]
      ensures forall p :: p in w.block.payload ==> PayloadKey(p) in store.db
    {
      forall p | p in w.missing ensures PayloadKey(p) in store.db {
        RepliedIffAskedAndStored(history, PayloadKey(p), PayloadReader(w.id));
      }
      PayloadArrivedKeepsPending(State(), w);
      pending := pending - {w.block.Digest()};
      waiting := waiting - {w};
      requests := requests - set p | p in w.block.payload;
      loopedBack := loopedBack + [w.block];
    }

    method GiveUp(w: Waiter)
      requires PendingOk(State()) && !Live(State(), w)
      modifies this`waiting
      ensures PendingOk(State()) && State() == GivenUp(old(State()), w)
    {
      GivenUpKeepsPending(State(), w);
      waiting := waiting - {w};
    }
  }

  /** What the tasks of a node share: the store's history, both synchronizers, and the way back to the core. */
  datatype TaskState = TaskState(
    history: seq<Command>,
    parents: ParentState,
    payloads: PayloadState,
    toCore: multiset<Block>)

  function Extended(history: seq<Command>, c: Command): (longer: seq<Command>)
    ensures longer == history + [c] && ExecuteAll(longer) == Execute(ExecuteAll(history), c)
  {
    var longer := history + [c];
    assert longer[..|longer| - 1] == history;
    longer
  }

  class Tasks {
    const store: Store
    const parents: ParentSynchronizer
    const payloads: PayloadSynchronizer
    var toCore: multiset<Block>
    ghost var history: seq<Command>

    ghost function Repr(): set<object> {
      {this, store, parents, payloads}
    }

    ghost predicate Valid()
      reads this, store, parents, payloads
    {
      && parents.store == store && payloads.store == store
      && store.State() == ExecuteAll(history)
      && ParentsOk(parents.State()) && PendingOk(payloads.State())
    }

    ghost function State(): TaskState
      reads this, parents, payloads
    {
      TaskState(history, parents.State(), payloads.State(), toCore)
    }

    constructor ()
      ensures Valid() && fresh(Repr())
      ensures State() == TaskState([], NO_PARENTS_AWAITED, NO_PAYLOAD_AWAITED, multiset{})
    {
      var db := new Store();
      store := db;
      parents := new ParentSynchronizer(db);
      payloads := new PayloadSynchronizer(db);
      toCore, history := multiset{}, [];
    }

    // What the core does with its tasks

    /** The core writes what it stores. */
    method WriteAll(writes: seq<Command>)
      requires Valid() && forall c :: c in writes ==> c.Write?
      modifies this, store
      ensures Valid() && State() == old(State()).(history := old(history) + writes)
    {
      for i := 0 to |writes|
        invariant Valid() && State() == old(State()).(history := old(history) + writes[..i])
      {
        assert writes[i] in writes;
        assert writes[..i + 1] == writes[..i] + [writes[i]];
        Written(writes[i]);
      }
      assert writes[..|writes|] == writes;
    }

    method Written(c: Command)
      requires Valid() && c.Write?
      modifies this, store
      ensures Valid() && State() == old(State()).(history := old(history) + [c])
    {
      store.Write(c.key, c.value);
      history := Extended(history, c);
    }

    /** A block that comes back leaves the channel to the core. */
    method TakeBack(b: Block)
      requires Valid() && b in toCore
      modifies this`toCore
      ensures Valid() && State() == old(State()).(toCore := old(toCore) - multiset{b})
    {
      toCore := toCore - multiset{b};
    }

    method HandOver(blocks: seq<Block>, messages: seq<SynchronizerMessage>, own: multiset<Block>)
      requires Valid()
      modifies this`toCore, parents`inbox, payloads`inbox
      ensures Valid()
      ensures State() == TaskState(old(history),
                                   old(parents.State()).(inbox := old(parents.inbox) + blocks),
                                   old(payloads.State()).(inbox := old(payloads.inbox) + messages),
                                   old(toCore) + own)
    {
      InboxKeepsPending(payloads.State(), payloads.inbox + messages);
      parents.inbox := parents.inbox + blocks;
      payloads.inbox := payloads.inbox + messages;
      toCore := toCore + own;
    }

    // What the tasks do

    method ParentReceived() returns (request: Option<Digest>)
      requires Valid() && parents.inbox != []
      modifies parents
      ensures Valid()
      ensures State() == old(State()).(
        parents := AwaitParent(old(parents.State()).(inbox := old(parents.inbox)[1..]), old(parents.inbox)[0]))
    {
      request := parents.Receive();
    }

    method ParentAsked(pw: ParentWaiter)
      requires Valid()
      modifies this, store
      ensures Valid()
      ensures State() == old(State()).(
        history := old(history) + [Command.NotifyRead(BlockKey(pw.block.qc.hash), ParentReader(pw.id))])
    {
      parents.Ask(pw);
      history := Extended(history, Command.NotifyRead(BlockKey(pw.block.qc.hash), ParentReader(pw.id)));
    }

    method PayloadAsked(w: Waiter, p: PayloadDigest)
      requires Valid()
      modifies this, store
      ensures Valid()
      ensures State() == old(State()).(
        history := old(history) + [Command.NotifyRead(PayloadKey(p), PayloadReader(w.id))])
    {
      payloads.Ask(w, p);
      history := Extended(history, Command.NotifyRead(PayloadKey(p), PayloadReader(w.id)));
    }

    method ParentResumed(pw: ParentWaiter)
      requires Valid() && pw in parents.waiting
      requires HasReply(ExecuteAll(history), BlockKey(pw.block.qc.hash), ParentReader(pw.id))
      modifies this, parents
      ensures Valid()
      ensures State() == old(State()).(parents := ParentArrived(old(parents.State()), pw),
                                       toCore := old(toCore) + multiset{pw.block})
    {
      parents.Resume(pw, history);
      toCore := toCore + multiset{pw.block};
    }

    method PayloadReceived() returns (requested: set<PayloadDigest>)
      requires Valid() && payloads.inbox != []
      modifies payloads
      ensures Valid()
      ensures State() == old(State()).(
        payloads := HandleMessage(old(payloads.State()).(inbox := old(payloads.inbox)[1..]), old(payloads.inbox)[0]))
    {
      requested := payloads.Receive();
    }

    method PayloadResumed(w: Waiter)
      requires Valid() && w in payloads.waiting
      requires WaitsForMissing(w.missing, w.block, StoredPayload(store.State()))
      requires forall p :: p in w.missing ==> HasReply(ExecuteAll(history), PayloadKey(p), PayloadReader(w.id))
      modifies this, payloads
      ensures Valid()
      ensures State() == old(State()).(payloads := PayloadArrived(old(payloads.State()), w),
                                       toCore := old(toCore) + multiset{w.block})
    {
      payloads.Resume(w, history);
      toCore := toCore + multiset{w.block};
    }

    method PayloadGivenUp(w: Waiter)
      requires Valid() && !Live(payloads.State(), w)
      modifies payloads
      ensures Valid() && State() == old(State()).(payloads := GivenUp(old(payloads.State()), w))
    {
      payloads.GiveUp(w);
    }

    method CleanSent(round: Round)
      requires Valid()
      modifies payloads`inbox
      ensures Valid()
      ensures State() == old(State()).(
        payloads := old(payloads.State()).(inbox := old(payloads.inbox) + [Clean(round)]))
    {
      InboxKeepsPending(payloads.State(), payloads.inbox + [Clean(round)]);
      payloads.inbox := payloads.inbox + [Clean(round)];
    }
  }
}

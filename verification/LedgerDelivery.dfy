/**
 Turning commits into the ledger: the node walks back from each committed block and sends on the
 payload of the blocks that it has not sent yet.
 */
module LedgerDelivery {
  import opened Wrappers
  import opened Messages

  /** The payload of a chain, from the genesis block up to `d`. */
  function PayloadOf(d: Digest): seq<PayloadDigest> {
    match d
    case Zero => []
    case BlockDigest(_, _, payload, parent) => PayloadOf(parent) + payload
  }

  /** What delivering `d` sends when rounds below `next` count as processed, and the new bound. */
  function Deliver(d: Digest, next: Round): (seq<PayloadDigest>, Round) {
    match d
    case Zero => ([], if next == 0 then 1 else next)
    case BlockDigest(_, round, payload, parent) =>
      var (sent, bound) := Deliver(parent, next);
      if round >= bound then (sent + payload, round + 1) else (sent, bound)
  }

  /** The blocks from `b` back to the genesis block can be loaded, each under its digest. */
  ghost predicate Loadable(store: map<Digest, Block>, payloads: set<PayloadDigest>, b: Block)
    decreases b.Digest()
  {
    && b.Digest() != GENESIS_BLOCK.Digest()
    && (forall p :: p in b.payload ==> p in payloads)
    && (b.qc.IsGenesis()
        || (b.qc.hash in store
            && store[b.qc.hash].Digest() == b.qc.hash
            && Loadable(store, payloads, store[b.qc.hash])))
  }

  ghost predicate Deliverable(store: map<Digest, Block>, payloads: set<PayloadDigest>, b: Block) {
    b == GENESIS_BLOCK || Loadable(store, payloads, b)
  }

  /** A commit, and what the store holds when it is analyzed. */
  datatype Arrival = Arrival(block: Block, store: map<Digest, Block>, payloads: set<PayloadDigest>)

  class Node {
    var store: map<Digest, Block>
    var payloads: set<PayloadDigest>
    var ledger: seq<PayloadDigest>
    var smallestUnprocessedRound: Round
    ghost var delivered: seq<Digest>

    constructor (store: map<Digest, Block>, payloads: set<PayloadDigest>)
      ensures this.store == store && this.payloads == payloads
      ensures ledger == [] && delivered == [] && Valid()
    {
      this.store, this.payloads := store, payloads;
      ledger, smallestUnprocessedRound, delivered := [], 0, [];
    }

    /** The ledger is what delivering the commits one by one sends. */
    ghost predicate Valid()
      reads this
    {
      (ledger, smallestUnprocessedRound) == DeliverAll(delivered)
    }

    /** The lookup in the store is the one whose failure stops the program. */
    method GetParentBlock(block: Block) returns (parent: Option<Block>)
      requires Deliverable(store, payloads, block)
      ensures parent.None? <==> block == GENESIS_BLOCK
      ensures parent.Some? ==> Deliverable(store, payloads, parent.value)
      ensures parent.Some? ==> Position(parent.value) == Position(block).parent
    {
      if block.Digest() == GENESIS_BLOCK.Digest() {
        return None;
      }
      if block.qc.IsGenesis() {
        return Some(GENESIS_BLOCK);
      }
      return Some(store[block.qc.hash]);
    }

    /** What the list of blocks collected on the way back looks like. */
    ghost predicate Path(blks: seq<Block>)
      reads this
    {
      && (forall i :: 0 <= i < |blks| ==> Deliverable(store, payloads, blks[i]))
      && forall i :: 0 <= i < |blks| - 1 ==>
           blks[i] != GENESIS_BLOCK && Position(blks[i]).parent == Position(blks[i + 1])
    }

    method CollectAncestors(block: Block) returns (blks: seq<Block>)
      requires Deliverable(store, payloads, block)
      ensures Path(blks) && blks != [] && blks[0] == block && blks[|blks| - 1] == GENESIS_BLOCK
    {
      blks := [block];
      var parent := GetParentBlock(block);
      while parent.Some?
        invariant Path(blks) && blks != [] && blks[0] == block
        invariant parent.None? <==> blks[|blks| - 1] == GENESIS_BLOCK
        invariant parent.Some? ==> Deliverable(store, payloads, parent.value)
                                   && Position(parent.value) == Position(blks[|blks| - 1]).parent
        decreases Position(blks[|blks| - 1])
      {
        blks := blks + [parent.value];
        parent := GetParentBlock(parent.value);
      }
    }

    /** The collected blocks are walked from the oldest on, and those of new rounds are sent. */
    method SendUnprocessed(blks: seq<Block>)
      requires Path(blks) && blks != [] && blks[|blks| - 1] == GENESIS_BLOCK
      modifies `ledger, `smallestUnprocessedRound
      ensures ledger == old(ledger) + Deliver(Position(blks[0]), old(smallestUnprocessedRound)).0
      ensures smallestUnprocessedRound == Deliver(Position(blks[0]), old(smallestUnprocessedRound)).1
    {
      var i := |blks|;
      ghost var done: seq<PayloadDigest> := [];
      while i > 0
        invariant 0 <= i <= |blks| && Path(blks)
        invariant i == |blks| ==> done == [] && smallestUnprocessedRound == old(smallestUnprocessedRound)
        invariant i < |blks| ==>
          (done, smallestUnprocessedRound) == Deliver(Position(blks[i]), old(smallestUnprocessedRound))
        invariant ledger == old(ledger) + done
      {
        i := i - 1;
        var blk := blks[i];
        assert done + [] == done;
        assert if i == |blks| - 1 then blk == GENESIS_BLOCK
               else Position(blk).BlockDigest? && Position(blk).parent == Position(blks[i + 1]);
        if blk.round >= smallestUnprocessedRound {
          smallestUnprocessedRound := blk.round + 1;
          assert forall p :: p in blk.payload ==> p in payloads;
          ledger := ledger + blk.payload;
          done := done + blk.payload;
        }
      }
    }

    method AnalyzeBlock(block: Block)
      requires Deliverable(store, payloads, block)
      modifies `ledger, `smallestUnprocessedRound, `delivered
      ensures ledger == old(ledger) + Deliver(Position(block), old(smallestUnprocessedRound)).0
      ensures smallestUnprocessedRound == Deliver(Position(block), old(smallestUnprocessedRound)).1
      ensures delivered == old(delivered) + [Position(block)]
      ensures old(Valid()) ==> Valid()
    {
      var blks := CollectAncestors(block);
      SendUnprocessed(blks);
      DeliverOneMore(delivered, Position(block));
      delivered := delivered + [Position(block)];
    }

    /**
     All commits that arrive, each with what the store holds by then. When they are on one chain, the
     ledger ends as the payload of the chain up to the highest commit.
     */
    method AnalyzeBlocks(arrivals: seq<Arrival>)
      requires Valid()
      requires forall a :: a in arrivals ==> Deliverable(a.store, a.payloads, a.block)
      modifies this
      ensures Valid() && delivered == old(delivered) + Commits(arrivals)
      ensures delivered != [] && OnOneChain(delivered) ==> ledger == PayloadOf(Highest(delivered))
    {
      for i := 0 to |arrivals|
        invariant Valid() && delivered == old(delivered) + Commits(arrivals[..i])
      {
        store, payloads := arrivals[i].store, arrivals[i].payloads;
        AnalyzeBlock(arrivals[i].block);
        assert Commits(arrivals[..i + 1]) == Commits(arrivals[..i]) + [Position(arrivals[i].block)];
      }
      assert arrivals[..|arrivals|] == arrivals;
      if delivered != [] && OnOneChain(delivered) {
        LedgerIsHighestChain(delivered);
      }
    }
  }

  function Commits(arrivals: seq<Arrival>): seq<Digest> {
    seq(|arrivals|, i requires 0 <= i < |arrivals| => Position(arrivals[i].block))
  }

  lemma DeliverOneMore(ds: seq<Digest>, d: Digest)
    ensures var (ledger, next) := DeliverAll(ds);
      DeliverAll(ds + [d]) == (ledger + Deliver(d, next).0, Deliver(d, next).1)
  {
    assert (ds + [d])[..|ds|] == ds;
  }

  // The incremental walk against the simple specification

  lemma {:induction false} DeliverFirst(d: Digest)
    requires Increasing(d)
    ensures Deliver(d, 0) == (PayloadOf(d), RoundOf(d) + 1)
  {
    if d.BlockDigest? {
      DeliverFirst(d.parent);
    }
  }

  /** Blocks of processed rounds are not sent again. */
  lemma {:induction false} DeliverBelow(d: Digest, next: Round)
    requires Increasing(d) && RoundOf(d) < next
    ensures Deliver(d, next) == ([], next)
  {
    if d.BlockDigest? {
      DeliverBelow(d.parent, next);
    }
  }

  /** Above the last block sent, exactly the missing rest of the chain is sent. */
  lemma {:induction false} DeliverAbove(d: Digest, high: Digest)
    requires Increasing(d) && Extends(d, high)
    ensures PayloadOf(high) + Deliver(d, RoundOf(high) + 1).0 == PayloadOf(d)
    ensures Deliver(d, RoundOf(high) + 1).1 == RoundOf(d) + 1
  {
    if d == high {
      DeliverBelow(d, RoundOf(high) + 1);
    } else {
      DeliverAbove(d.parent, high);
    }
  }

  lemma {:induction false} ExtendsOrdersRounds(d: Digest, a: Digest)
    requires Increasing(d) && Extends(d, a)
    ensures RoundOf(a) <= RoundOf(d) && (RoundOf(a) == RoundOf(d) ==> a == d) && Increasing(a)
  {
    if d != a {
      ExtendsOrdersRounds(d.parent, a);
    }
  }

  lemma {:induction false} PayloadOfAncestor(d: Digest, a: Digest)
    requires Extends(d, a)
    ensures PayloadOf(a) <= PayloadOf(d)
  {
    if d != a {
      PayloadOfAncestor(d.parent, a);
    }
  }

  predicate OnOneChain(ds: seq<Digest>) {
    && (forall i :: 0 <= i < |ds| ==> Increasing(ds[i]))
    && forall i, j :: 0 <= i < |ds| && 0 <= j < |ds| ==> Extends(ds[i], ds[j]) || Extends(ds[j], ds[i])
  }

  /** The ledger and the bound after delivering the commits one by one. */
  function DeliverAll(ds: seq<Digest>): (seq<PayloadDigest>, Round) {
    if ds == [] then ([], 0)
    else
      var (ledger, next) := DeliverAll(ds[..|ds| - 1]);
      var (sent, next') := Deliver(ds[|ds| - 1], next);
      (ledger + sent, next')
  }

  function Highest(ds: seq<Digest>): (d: Digest)
    requires ds != []
    ensures d in ds
  {
    var last := ds[|ds| - 1];
    if |ds| == 1 then last
    else
      var h := Highest(ds[..|ds| - 1]);
      if RoundOf(last) > RoundOf(h) then last else h
  }

  lemma OnOneChainSplit(ds: seq<Digest>)
    requires OnOneChain(ds) && |ds| > 1
    ensures var init, last := ds[..|ds| - 1], ds[|ds| - 1];
      && OnOneChain(init) && Increasing(last) && Increasing(Highest(init))
      && (Extends(last, Highest(init)) || Extends(Highest(init), last))
  {
    var init := ds[..|ds| - 1];
    var i :| 0 <= i < |init| && init[i] == Highest(init);
    assert ds[i] == Highest(init);
  }

  lemma {:induction false} HighestExtendsAll(ds: seq<Digest>, d: Digest)
    requires OnOneChain(ds) && d in ds
    ensures Extends(Highest(ds), d)
  {
    if |ds| > 1 {
      OnOneChainSplit(ds);
      var init, last := ds[..|ds| - 1], ds[|ds| - 1];
      DeliverNext(Highest(init), last);
      if d != last {
        assert d in init;
        HighestExtendsAll(init, d);
        ExtendsTransitive(Highest(ds), Highest(init), d);
      }
    }
  }

  /**
   For any sequence of commits on one chain, with repetitions and late older ones, the walk has sent
   exactly the payload of the chain up to the highest commit, each block once and in order.
   */
  lemma {:induction false} LedgerIsHighestChain(ds: seq<Digest>)
    requires OnOneChain(ds) && ds != []
    ensures DeliverAll(ds) == (PayloadOf(Highest(ds)), RoundOf(Highest(ds)) + 1)
  {
    var init, last := ds[..|ds| - 1], ds[|ds| - 1];
    if |ds| == 1 {
      assert DeliverAll(init) == ([], 0);
      DeliverFirst(last);
      assert [] + PayloadOf(last) == PayloadOf(last);
    } else {
      OnOneChainSplit(ds);
      LedgerIsHighestChain(init);
      DeliverNext(Highest(init), last);
    }
  }

  /** Delivering one more commit of the chain whose blocks up to `h` were sent. */
  lemma DeliverNext(h: Digest, last: Digest)
    requires Increasing(h) && Increasing(last) && (Extends(last, h) || Extends(h, last))
    ensures var top := if RoundOf(last) > RoundOf(h) then last else h;
      && PayloadOf(h) + Deliver(last, RoundOf(h) + 1).0 == PayloadOf(top)
      && Deliver(last, RoundOf(h) + 1).1 == RoundOf(top) + 1
      && Extends(top, last) && Extends(top, h)
  {
    if Extends(last, h) {
      ExtendsOrdersRounds(last, h);
      DeliverAbove(last, h);
    } else {
      ExtendsOrdersRounds(h, last);
      DeliverBelow(last, RoundOf(h) + 1);
    }
  }
}

/**
 The mempool core as the program has it: an object with a queue that its handlers change in place.
 */
module MempoolCores {
  import opened Wrappers
  import opened Messages
  import opened Mempools

  class MempoolCore {
    const maxPayloads: nat
    const queueCapacity: nat
    var queue: seq<PayloadDigest>
    var stored: set<PayloadDigest>

    function State(): Mempool
      reads this
    {
      Mempool(queue, stored)
    }

    constructor (maxPayloads: nat, queueCapacity: nat)
      ensures State() == Mempool([], {})
      ensures this.maxPayloads == maxPayloads && this.queueCapacity == queueCapacity
    {
      this.maxPayloads, this.queueCapacity := maxPayloads, queueCapacity;
      queue, stored := [], {};
    }

    /** Payloads are stored before they enter the queue. */
    method HandlePayload(payload: PayloadDigest, own: bool, oversized: bool) returns (accepted: bool)
      modifies this
      ensures accepted <==> if own then |old(queue)| < queueCapacity else !oversized
      ensures State() == Receive(queueCapacity, old(State()), payload, own, oversized)
      ensures accepted ==> queue == old(queue) + [payload] && stored == old(stored) + {payload}
      ensures !accepted ==> queue == old(queue) && stored == old(stored)
      ensures old(MempoolOk(State())) ==> MempoolOk(State())
    {
      if own && |queue| >= queueCapacity {
        return false;
      }
      if !own && oversized {
        return false;
      }
      stored := stored + {payload};
      queue := queue + [payload];
      return true;
    }

    method GetPayload(made: Option<PayloadDigest>) returns (payload: seq<PayloadDigest>)
      modifies this
      ensures (State(), payload) == Mempools.GetPayload(maxPayloads, queueCapacity, old(State()), made)
    {
      if queue == [] {
        if made.Some? && |queue| < queueCapacity {
          stored := stored + {made.value};
          return [made.value];
        }
        return [];
      }
      payload := queue[..if maxPayloads < |queue| then maxPayloads else |queue|];
      Cleanup(payload);
    }

    /** Every occurrence of the digests leaves the queue; the others stay, as often and in the order as before. */
    method Cleanup(digests: seq<PayloadDigest>)
      modifies this`queue
      ensures queue == Retain(old(queue), digests)
    {
      var kept: seq<PayloadDigest> := [];
      for i := 0 to |queue|
        invariant queue == old(queue)
        invariant kept == Retain(queue[..i], digests)
      {
        RetainDistributes(queue[..i], [queue[i]], digests);
        assert queue[..i + 1] == queue[..i] + [queue[i]];
        if queue[i] !in digests {
          kept := kept + [queue[i]];
        }
      }
      assert queue[..|queue|] == queue;
      queue := kept;
    }

    function Verify(payload: seq<PayloadDigest>): (missing: set<PayloadDigest>)
      reads this
      ensures missing == {} <==> forall p :: p in payload ==> p in stored
    {
      var missing := Missing(State(), payload);
      assert forall p :: p in payload && p !in stored ==> p in missing;
      missing
    }
  }
}

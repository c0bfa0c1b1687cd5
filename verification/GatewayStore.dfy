/** The objects behind the gateways: a bounded map from traces to one-slot waiters. */
module GatewayStore {
  import opened RuntimeTypes
  import opened Gateway

  datatype Answer = Reply(body: string) | Failure(error: string)

  /** A channel of capacity one; a send takes the default branch when it is full. */
  class Waiter {
    var slot: Option<Answer>

    constructor ()
      ensures slot.None?
    {
      slot := None;
    }

    method Offer(a: Answer)
      modifies this
      ensures slot == if old(slot).Some? then old(slot) else Some(a)
    {
      if slot.None? { slot := Some(a); }
    }
  }

  class RequestGateway {
    const kind: Kind
    var pending: map<string, Waiter>

    /** At most 16 entries, each with a waiter of its own. */
    ghost predicate Valid()
      reads this
    {
      |pending.Keys| <= MAX_PENDING
          && forall t, u :: t in pending && u in pending && t != u ==> pending[t] != pending[u]
    }

    ghost function Waiters(): set<Waiter>
      reads this
    {
      set t | t in pending :: pending[t]
    }

    constructor (kind: Kind)
      ensures Valid() && pending == map[] && this.kind == kind
    {
      this.kind := kind;
      pending := map[];
    }

    /** The critical section at the start of a request: refused when 16 are pending. */
    method Register(trace: string) returns (w: Option<Waiter>)
      requires Valid()
      modifies this
      ensures Valid()
      ensures w.None? <==> |old(pending.Keys)| >= 16
      ensures w.None? ==> pending == old(pending)
      ensures w.Some? ==> fresh(w.value) && w.value.slot.None? && pending == old(pending)[trace := w.value]
    {
      if |pending| >= MAX_PENDING {
        assert |pending| == |pending.Keys|;
        return None;
      }
      assert |pending| == |pending.Keys|;
      var waiter := new Waiter();
      pending := pending[trace := waiter];
      assert pending.Keys == old(pending.Keys) + {trace};
      return Some(waiter);
    }

    /** The deferred removal. */
    method Release(trace: string)
      requires Valid()
      modifies this
      ensures Valid() && pending == old(pending) - {trace}
    {
      pending := pending - {trace};
      assert pending.Keys == old(pending.Keys) - {trace};
    }

    /** A message of another type is not the gateway's. A reply fills its own waiter, if that is empty, and
        no other. */
    method Handle(mine: bool, trace: string, body: string) returns (consumed: bool)
      requires Valid()
      modifies Waiters()
      ensures consumed <==> mine && (kind == SourceReads || trace in pending)
      ensures !mine ==> forall t :: t in pending ==> pending[t].slot == old(pending[t].slot)
      ensures mine && trace in pending ==>
                pending[trace].slot == if old(pending[trace].slot).Some? then old(pending[trace].slot)
                    else Some(Reply(body))
      ensures forall t :: t in pending && t != trace ==> pending[t].slot == old(pending[t].slot)
    {
      if !mine { return false; }
      if trace !in pending { return kind == SourceReads; }
      pending[trace].Offer(Reply(body));
      return true;
    }

    /** Every waiter that holds nothing yet gets the error. */
    method FailPending(error: string)
      requires Valid()
      modifies Waiters()
      ensures forall t :: t in pending ==>
                pending[t].slot == if old(pending[t].slot).Some? then old(pending[t].slot) else Some(Failure(error))
    {
      var left := pending.Keys;
      while left != {}
        invariant left <= pending.Keys
        invariant forall t :: t in left ==> pending[t].slot == old(pending[t].slot)
        invariant forall t :: t in pending && t !in left ==>
                    pending[t].slot == if old(pending[t].slot).Some? then old(pending[t].slot) else Some(Failure(error))
        decreases left
      {
        var t :| t in left;
        pending[t].Offer(Failure(error));
        left := left - {t};
      }
    }
  }
}

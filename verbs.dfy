/**
 * The world outside the endpoint: the ibverbs and librdmacm calls it makes and
 * the asynchronous-context lock. Every call is recorded in a ghost event log,
 * and the set of live handles is exactly what replaying that log yields. The
 * outcome of each call (success, return code, assigned queue-pair number) is an
 * input chosen by the environment, so every contract below holds for every
 * outcome.
 */
module Verbs {
  import opened Wrappers
  import opened CmTypes

  /** `enum ibv_qp_type` */
  datatype QpType = QptRc | QptUc | QptUd

  /** `struct ibv_qp_cap` */
  datatype QpCap = QpCap(maxSendWr: nat, maxRecvWr: nat, maxSendSge: nat, maxRecvSge: nat)

  /** `struct ibv_qp_init_attr`, the members this endpoint sets (the rest are zero). */
  datatype QpInitAttr = QpInitAttr(sendCq: Option<Handle>, recvCq: Option<Handle>, qpType: QpType, cap: QpCap)

  /** `enum rdma_port_space` */
  datatype PortSpace = PsIpoib | PsTcp | PsUdp | PsIb

  /**
   * One external call. Creation events carry the handle obtained, `None` when
   * the call failed. `CreateId` and `ResolveAddr` carry the endpoint's fields
   * as they were when the call was issued: the event handler may read them as
   * soon as the call is made.
   */
  datatype Event =
    | CreateCq(dev: Handle, cqe: nat, newCq: Option<Handle>)
    | CreateQp(pd: Handle, attr: QpInitAttr, newQp: Option<Handle>)
    | DestroyQp(qp: Handle)
    | DestroyCq(cq: Handle)
    | CreateId(evCh: nat, context: EpView, ps: PortSpace, newId: Option<Handle>)
    | ResolveAddr(id: Handle, dst: SockAddr, timeoutMs: nat, context: EpView)
    | Disconnect(id: Handle)
    | DestroyId(id: Handle)
    | AsyncBlock
    | AsyncUnblock

  /** Handles an event brings to life. */
  function Acquired(e: Event): (hs: set<Handle>)
  {
    match e
    case CreateCq(_, _, r) => Elems(r)
    case CreateQp(_, _, r) => Elems(r)
    case CreateId(_, _, _, r) => Elems(r)
    case _ => {}
  }

  /** Handles an event releases. */
  function Released(e: Event): (hs: set<Handle>)
  {
    match e
    case DestroyQp(h) => {h}
    case DestroyCq(h) => {h}
    case DestroyId(h) => {h}
    case _ => {}
  }

  /** The live handles after one event. */
  function Step(live: set<Handle>, e: Event): (after: set<Handle>)
  {
    live - Released(e) + Acquired(e)
  }

  /** The live handles after a sequence of events, starting from `live`. */
  function Replay(live: set<Handle>, log: seq<Event>): (after: set<Handle>)
    decreases |log|
  {
    if log == [] then live else Replay(Step(live, log[0]), log[1..])
  }

  /** Replaying two logs one after the other is replaying their concatenation. */
  lemma {:induction false} ReplayAppend(live: set<Handle>, a: seq<Event>, b: seq<Event>)
    ensures Replay(live, a + b) == Replay(Replay(live, a), b)
    decreases |a|
  {
    if a == [] {
      assert a + b == b;
    } else {
      assert (a + b)[0] == a[0];
      assert (a + b)[1..] == a[1..] + b;
      ReplayAppend(Step(live, a[0]), a[1..], b);
    }
  }

  /** Replaying a log that starts with `e` is replaying the rest after one step. */
  lemma ReplayCons(live: set<Handle>, e: Event, rest: seq<Event>)
    ensures Replay(live, [e] + rest) == Replay(Step(live, e), rest)
  {
  }

  /** Replaying a single event is one step. */
  lemma ReplayOne(live: set<Handle>, e: Event)
    ensures Replay(live, [e]) == Step(live, e)
  {
  }

  /** Replaying one more event is one more step. */
  lemma ReplaySnoc(live: set<Handle>, log: seq<Event>, e: Event)
    ensures Replay(live, log + [e]) == Step(Replay(live, log), e)
  {
    ReplayAppend(live, log, [e]);
  }

  /**
   * ibverbs, librdmacm and the worker's async context. `next` is the number the
   * next created handle gets; every live handle has a smaller one, so a new
   * handle is never one that is still live.
   */
  class World {
    ghost var log: seq<Event>
    ghost var live: set<Handle>
    var next: nat

    ghost predicate Valid()
      reads this
    {
      live == Replay({}, log) && forall h :: h in live ==> h.n < next
    }

    constructor ()
      ensures Valid() && log == [] && live == {}
    {
      log := [];
      live := {};
      next := 0;
    }

    /** Appends `e` to the log and applies it to the live set. */
    ghost method Record(e: Event)
      requires Valid()
      requires forall h :: h in Acquired(e) ==> h.n < next
      modifies this`log, this`live
      ensures Valid()
      ensures log == old(log) + [e] && live == Step(old(live), e)
    {
      ReplaySnoc({}, log, e);
      log := log + [e];
      live := Step(live, e);
    }

    /** `ibv_create_cq` on the device of `dev`; `ok` is whether the driver succeeds. */
    method CreateCq(dev: Handle, cqe: nat, ok: bool) returns (cq: Option<Handle>)
      requires Valid() && dev in live
      modifies this
      ensures Valid() && next == if ok then old(next) + 1 else old(next)
      ensures cq == if ok then Some(CqHandle(old(next))) else None
      ensures cq.Some? ==> cq.value !in old(live) && next > cq.value.n
      ensures log == old(log) + [Event.CreateCq(dev, cqe, cq)]
      ensures live == old(live) + Elems(cq)
    {
      if ok {
        cq := Some(CqHandle(next));
        next := next + 1;
      } else {
        cq := None;
      }
      Record(Event.CreateCq(dev, cqe, cq));
    }

    /** `ibv_create_qp` on the protection domain of `pd`; the driver assigns `qpNum`. */
    method CreateQp(pd: Handle, attr: QpInitAttr, ok: bool, qpNum: nat) returns (qp: Option<Handle>)
      requires Valid() && pd in live
      modifies this
      ensures Valid() && next == if ok then old(next) + 1 else old(next)
      ensures qp == if ok then Some(QpHandle(old(next), qpNum)) else None
      ensures qp.Some? ==> qp.value !in old(live) && next > qp.value.n
      ensures log == old(log) + [Event.CreateQp(pd, attr, qp)]
      ensures live == old(live) + Elems(qp)
    {
      if ok {
        qp := Some(QpHandle(next, qpNum));
        next := next + 1;
      } else {
        qp := None;
      }
      Record(Event.CreateQp(pd, attr, qp));
    }

    /** `ibv_destroy_qp`; its return code `ret` comes from the driver. */
    method DestroyQp(qp: Handle, ret: int) returns (r: int)
      requires Valid() && qp in live
      modifies this`log, this`live
      ensures Valid()
      ensures r == ret
      ensures log == old(log) + [Event.DestroyQp(qp)]
      ensures live == old(live) - {qp}
    {
      Record(Event.DestroyQp(qp));
      r := ret;
    }

    /** `ibv_destroy_cq`; its return code `ret` comes from the driver. */
    method DestroyCq(cq: Handle, ret: int) returns (r: int)
      requires Valid() && cq in live
      modifies this`log, this`live
      ensures Valid()
      ensures r == ret
      ensures log == old(log) + [Event.DestroyCq(cq)]
      ensures live == old(live) - {cq}
    {
      Record(Event.DestroyCq(cq));
      r := ret;
    }

    /**
     * `rdma_create_id` on event channel `evCh`; `ret` is its return code and
     * the id is written only when it is zero.
     */
    method CreateId(evCh: nat, ghost context: EpView, ps: PortSpace, ret: int) returns (r: int, id: Option<Handle>)
      requires Valid()
      modifies this
      ensures Valid() && next == if ret == 0 then old(next) + 1 else old(next)
      ensures r == ret
      ensures id == if ret == 0 then Some(IdHandle(old(next))) else None
      ensures id.Some? ==> id.value !in old(live) && next > id.value.n
      ensures log == old(log) + [Event.CreateId(evCh, context, ps, id)]
      ensures live == old(live) + Elems(id)
    {
      if ret == 0 {
        id := Some(IdHandle(next));
        next := next + 1;
      } else {
        id := None;
      }
      Record(Event.CreateId(evCh, context, ps, id));
      r := ret;
    }

    /** `rdma_resolve_addr`: arms asynchronous address resolution. */
    method ResolveAddr(id: Handle, dst: SockAddr, timeoutMs: nat, ghost context: EpView, ret: int) returns (r: int)
      requires Valid() && id in live
      modifies this`log, this`live
      ensures Valid()
      ensures r == ret
      ensures log == old(log) + [Event.ResolveAddr(id, dst, timeoutMs, context)]
      ensures live == old(live)
    {
      Record(Event.ResolveAddr(id, dst, timeoutMs, context));
      r := ret;
    }

    /** `rdma_disconnect` */
    method Disconnect(id: Handle, ret: int) returns (r: int)
      requires Valid() && id in live
      modifies this`log, this`live
      ensures Valid()
      ensures r == ret
      ensures log == old(log) + [Event.Disconnect(id)]
      ensures live == old(live)
    {
      Record(Event.Disconnect(id));
      r := ret;
    }

    /** `uct_rdmacm_cm_destroy_id`: destroys the id and drops its undelivered events. */
    method DestroyId(id: Handle)
      requires Valid() && id in live
      modifies this`log, this`live
      ensures Valid()
      ensures log == old(log) + [Event.DestroyId(id)]
      ensures live == old(live) - {id}
    {
      Record(Event.DestroyId(id));
    }

    /** `UCS_ASYNC_BLOCK` on the worker's async context. */
    method AsyncBlock()
      requires Valid()
      modifies this`log, this`live
      ensures Valid()
      ensures log == old(log) + [Event.AsyncBlock] && live == old(live)
    {
      Record(Event.AsyncBlock);
    }

    /** `UCS_ASYNC_UNBLOCK` on the worker's async context. */
    method AsyncUnblock()
      requires Valid()
      modifies this`log, this`live
      ensures Valid()
      ensures log == old(log) + [Event.AsyncUnblock] && live == old(live)
    {
      Record(Event.AsyncUnblock);
    }
  }
}

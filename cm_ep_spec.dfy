/**
 * What the rdmacm endpoint promises, stated on values: the parameter checks of
 * endpoint creation, the role it dispatches to, its overall status, and the
 * exact sequence of external calls each operation makes. The lemmas show that
 * these call sequences leave no handle behind on a failure, release in the
 * required order, and arm address resolution last.
 */
module CmEpSpec {
  import opened Wrappers
  import opened CmTypes
  import opened Verbs

  /** Timeout, in milliseconds, given to `rdma_resolve_addr`. */
  const ResolveTimeoutMs: nat := 1000

  /** Number of entries requested for the dummy completion queue. */
  const DummyCqe: nat := 1

  /** The caller asked for asynchronous callback delivery. */
  predicate AsyncRequested(p: EpParams)
  {
    FieldSockaddrCbFlags in p.fieldMask && CbFlagAsync in p.sockaddrCbFlags
  }

  /**
   * The checks endpoint creation makes before it writes a field or acquires
   * anything, in their order: the manager must be given, asynchronous callbacks
   * must be requested, and a destination address or a connection request must
   * be given.
   */
  function Validate(p: EpParams): (r: Status)
    ensures r == Ok || r == ErrInvalidParam || r == ErrUnsupported
    ensures r == Ok <==>
              FieldCm in p.fieldMask && AsyncRequested(p) &&
              (FieldSockaddr in p.fieldMask || FieldConnRequest in p.fieldMask)
    ensures r == ErrUnsupported <==> FieldCm in p.fieldMask && !AsyncRequested(p)
    ensures FieldCm !in p.fieldMask ==> r == ErrInvalidParam
  {
    if FieldCm !in p.fieldMask then ErrInvalidParam
    else if !AsyncRequested(p) then ErrUnsupported
    else if FieldSockaddr !in p.fieldMask && FieldConnRequest !in p.fieldMask then ErrInvalidParam
    else Ok
  }

  /** The initialisation path the endpoint takes after validation. */
  datatype Role = ClientRole | ServerRole | NoRole

  function RoleOf(mask: set<ParamField>): (r: Role)
  {
    if FieldSockaddr in mask then ClientRole
    else if FieldConnRequest in mask then ServerRole
    else NoRole
  }

  /** After validation succeeds the "neither address nor request" branch cannot be taken. */
  lemma ValidatedHasRole(p: EpParams)
    requires Validate(p) == Ok
    ensures RoleOf(p.fieldMask) != NoRole
    ensures RoleOf(p.fieldMask) == ClientRole <==> FieldSockaddr in p.fieldMask
  {
  }

  /**
   * The status endpoint creation returns, given the return codes of
   * `rdma_create_id` and `rdma_resolve_addr`.
   */
  function InitStatus(p: EpParams, createIdRet: int, resolveRet: int): (r: Status)
    ensures Validate(p) != Ok ==> r == Validate(p)
    ensures Validate(p) == Ok && FieldSockaddr in p.fieldMask ==>
              r == (if createIdRet == 0 && resolveRet == 0 then Ok else ErrIoError)
    ensures Validate(p) == Ok && FieldSockaddr !in p.fieldMask ==> r == ErrNotImplemented
    ensures r == Ok ==> FieldSockaddr in p.fieldMask
  {
    var v := Validate(p);
    if v != Ok then v
    else
      match RoleOf(p.fieldMask)
      case ClientRole => if createIdRet != 0 || resolveRet != 0 then ErrIoError else Ok
      case ServerRole => ErrNotImplemented
      case NoRole => ErrInvalidParam
  }

  /** The attributes the dummy queue pair is requested with, on completion queue `cq`. */
  function DummyQpInitAttr(cq: Handle): (a: QpInitAttr)
  {
    QpInitAttr(Some(cq), Some(cq), QptUd, QpCap(2, 2, 1, 1))
  }

  /**
   * The calls `uct_rdmacm_create_dummy_cq_qp` makes on the device of `id`, when
   * the completion queue would be `cq` and the queue pair `qp`: create the
   * completion queue, then the queue pair, and destroy the completion queue
   * again if the queue pair cannot be created.
   */
  function DummyCqQpTrace(id: Handle, cq: Handle, qp: Handle, cqOk: bool, qpOk: bool): (t: seq<Event>)
  {
    if !cqOk then [CreateCq(id, DummyCqe, None)]
    else if !qpOk then [CreateCq(id, DummyCqe, Some(cq)), CreateQp(id, DummyQpInitAttr(cq), None), DestroyCq(cq)]
    else [CreateCq(id, DummyCqe, Some(cq)), CreateQp(id, DummyQpInitAttr(cq), Some(qp))]
  }

  /**
   * The dummy allocation leaves nothing behind when it fails, and leaves exactly
   * the new completion queue and queue pair live when it succeeds.
   */
  lemma DummyCqQpNoLeak(live: set<Handle>, id: Handle, cq: Handle, qp: Handle, cqOk: bool, qpOk: bool)
    requires cq !in live && qp !in live && cq != qp
    ensures Replay(live, DummyCqQpTrace(id, cq, qp, cqOk, qpOk)) ==
            if cqOk && qpOk then live + {cq, qp} else live
  {
    var e0 := CreateCq(id, DummyCqe, Some(cq));
    if !cqOk {
      ReplayOne(live, CreateCq(id, DummyCqe, None));
    } else if !qpOk {
      var e1 := CreateQp(id, DummyQpInitAttr(cq), None);
      assert DummyCqQpTrace(id, cq, qp, cqOk, qpOk) == [e0] + ([e1] + [DestroyCq(cq)]);
      ReplayCons(live, e0, [e1] + [DestroyCq(cq)]);
      ReplayCons(live + {cq}, e1, [DestroyCq(cq)]);
      ReplayOne(live + {cq}, DestroyCq(cq));
      assert Step(live, e0) == live + {cq};
      assert Step(live + {cq}, e1) == live + {cq};
      assert Step(live + {cq}, DestroyCq(cq)) == live;
    } else {
      var e1 := CreateQp(id, DummyQpInitAttr(cq), Some(qp));
      assert DummyCqQpTrace(id, cq, qp, cqOk, qpOk) == [e0] + [e1];
      ReplayCons(live, e0, [e1]);
      ReplayOne(live + {cq}, e1);
    }
  }

  /** The dummy queue pair is a UD queue pair on the new completion queue, of the smallest size. */
  lemma DummyCqQpRequests(id: Handle, cq: Handle, qp: Handle, cqOk: bool, qpOk: bool)
    ensures forall e :: e in DummyCqQpTrace(id, cq, qp, cqOk, qpOk) && e.CreateCq? ==>
              e.dev == id && e.cqe == 1
    ensures forall e :: e in DummyCqQpTrace(id, cq, qp, cqOk, qpOk) && e.CreateQp? ==>
              e.pd == id && e.attr.qpType == QptUd &&
              e.attr.sendCq == Some(cq) && e.attr.recvCq == Some(cq) &&
              e.attr.cap == QpCap(2, 2, 1, 1)
    ensures CreateQp(id, DummyQpInitAttr(cq), None) in DummyCqQpTrace(id, cq, qp, cqOk, qpOk) <==> cqOk && !qpOk
  {
  }

  /**
   * The calls `uct_rdamcm_cm_ep_client_init` makes: create the connection id
   * with the endpoint as it stood (`before`), then arm address resolution with
   * the id stored, and destroy the id again if resolution cannot be armed.
   */
  function ClientInitTrace(evCh: nat, before: EpView, dst: SockAddr, id: Handle, createOk: bool, resolveOk: bool): (t: seq<Event>)
  {
    if !createOk then [CreateId(evCh, before, PsTcp, None)]
    else
      [CreateId(evCh, before, PsTcp, Some(id)), ResolveAddr(id, dst, ResolveTimeoutMs, before.(id := Some(id)))] +
      (if resolveOk then [] else [DestroyId(id)])
  }

  /** Client initialisation leaves nothing behind when it fails, and exactly the new id when it succeeds. */
  lemma ClientInitNoLeak(live: set<Handle>, evCh: nat, before: EpView, dst: SockAddr, id: Handle, createOk: bool, resolveOk: bool)
    requires id !in live
    ensures Replay(live, ClientInitTrace(evCh, before, dst, id, createOk, resolveOk)) ==
            if createOk && resolveOk then live + {id} else live
  {
    if !createOk {
      ReplayOne(live, CreateId(evCh, before, PsTcp, None));
    } else {
      var e0 := CreateId(evCh, before, PsTcp, Some(id));
      var e1 := ResolveAddr(id, dst, ResolveTimeoutMs, before.(id := Some(id)));
      var tail := if resolveOk then [] else [DestroyId(id)];
      assert ClientInitTrace(evCh, before, dst, id, createOk, resolveOk) == [e0] + ([e1] + tail);
      ReplayCons(live, e0, [e1] + tail);
      assert Step(live, e0) == live + {id};
      ReplayCons(live + {id}, e1, tail);
      if !resolveOk {
        ReplayOne(live + {id}, DestroyId(id));
        assert Step(live + {id}, DestroyId(id)) == live;
      }
    }
  }

  /**
   * Whatever the outcome of the two calls, the id is created first;
   * resolution is requested only on an id that was created, exactly once, as
   * the second call, with the endpoint as it stood at id creation changed only
   * in its stored id; nothing but that id's destroy follows it, and on success
   * it is the last call.
   */
  lemma ClientInitResolveLast(evCh: nat, before: EpView, dst: SockAddr, id: Handle, createOk: bool, resolveOk: bool)
    ensures var t := ClientInitTrace(evCh, before, dst, id, createOk, resolveOk);
            |t| >= 1 &&
            t[0] == CreateId(evCh, before, PsTcp, if createOk then Some(id) else None) &&
            (createOk <==> exists i :: 0 <= i < |t| && t[i].ResolveAddr?) &&
            (forall i :: 0 <= i < |t| && t[i].ResolveAddr? ==>
               i == 1 && t[i].id == id && t[i].dst == dst && t[i].timeoutMs == ResolveTimeoutMs &&
               t[i].context == t[0].context.(id := Some(id)) &&
               (forall j :: i < j < |t| ==> t[j] == DestroyId(id))) &&
            (createOk && resolveOk ==> t[|t| - 1].ResolveAddr?)
  {
    var t := ClientInitTrace(evCh, before, dst, id, createOk, resolveOk);
    if createOk {
      assert t[1].ResolveAddr?;
    }
  }

  /**
   * The calls `UCS_CLASS_CLEANUP_FUNC(uct_rdmacm_cm_ep_t)` makes: under the
   * async lock, destroy the queue pair if there is one, then the completion
   * queue if there is one, then the id.
   */
  function CleanupTrace(qp: Option<Handle>, cq: Option<Handle>, id: Handle): (t: seq<Event>)
  {
    [AsyncBlock] +
    (if qp.Some? then [DestroyQp(qp.value)] else []) +
    (if cq.Some? then [DestroyCq(cq.value)] else []) +
    [DestroyId(id), AsyncUnblock]
  }

  /** Cleanup releases exactly the handles the endpoint owns. */
  lemma {:induction false} CleanupReleasesOwned(live: set<Handle>, qp: Option<Handle>, cq: Option<Handle>, id: Handle)
    ensures Replay(live, CleanupTrace(qp, cq, id)) == live - (Elems(qp) + Elems(cq) + {id})
  {
    var b := if qp.Some? then [DestroyQp(qp.value)] else [];
    var c := if cq.Some? then [DestroyCq(cq.value)] else [];
    var d := [DestroyId(id), AsyncUnblock];
    assert CleanupTrace(qp, cq, id) == [AsyncBlock] + (b + (c + d));
    ReplayCons(live, AsyncBlock, b + (c + d));
    assert Step(live, AsyncBlock) == live;
    ReplayAppend(live, b, c + d);
    ReplayAppend(Replay(live, b), c, d);
    var s1 := Replay(live, b);
    assert s1 == live - Elems(qp) by {
      if qp.Some? { ReplayOne(live, DestroyQp(qp.value)); }
    }
    var s2 := Replay(s1, c);
    assert s2 == s1 - Elems(cq) by {
      if cq.Some? { ReplayOne(s1, DestroyCq(cq.value)); }
    }
    assert d == [DestroyId(id)] + [AsyncUnblock];
    ReplayCons(s2, DestroyId(id), [AsyncUnblock]);
    ReplayOne(s2 - {id}, AsyncUnblock);
    assert Step(s2, DestroyId(id)) == s2 - {id};
    assert Step(s2 - {id}, AsyncUnblock) == s2 - {id};
  }

  /** Rank of a release in cleanup: queue pair, then completion queue, then id. */
  function ReleaseRank(e: Event): (rank: nat)
  {
    match e
    case DestroyQp(_) => 0
    case DestroyCq(_) => 1
    case _ => 2
  }

  /**
   * Cleanup is bracketed by the async block and unblock, everything between
   * them is a release, and releases come in the order queue pair, completion
   * queue, id.
   */
  lemma CleanupOrder(qp: Option<Handle>, cq: Option<Handle>, id: Handle)
    ensures var t := CleanupTrace(qp, cq, id);
            |t| >= 3 && t[0] == AsyncBlock && t[|t| - 1] == AsyncUnblock && t[|t| - 2] == DestroyId(id) &&
            (forall i :: 0 < i < |t| - 1 ==> Released(t[i]) != {}) &&
            (forall i, j :: 0 < i < j < |t| - 1 ==> ReleaseRank(t[i]) < ReleaseRank(t[j]))
  {
  }

  /**
   * A client endpoint that is created, given a dummy queue pair (or fails to
   * get one) and then cleaned up leaves the set of live handles as it found it.
   */
  lemma {:induction false} ClientLifecycleNoLeak(
    live: set<Handle>, evCh: nat, before: EpView, dst: SockAddr,
    id: Handle, cq: Handle, qp: Handle, cqOk: bool, qpOk: bool)
    requires id !in live && cq !in live && qp !in live
    requires id != cq && id != qp && cq != qp
    ensures var owned := if cqOk && qpOk then Some(qp) else None;
            var ownedCq := if cqOk && qpOk then Some(cq) else None;
            Replay(live, ClientInitTrace(evCh, before, dst, id, true, true) +
                         DummyCqQpTrace(id, cq, qp, cqOk, qpOk) +
                         CleanupTrace(owned, ownedCq, id)) == live
  {
    var a := ClientInitTrace(evCh, before, dst, id, true, true);
    var b := DummyCqQpTrace(id, cq, qp, cqOk, qpOk);
    var owned := if cqOk && qpOk then Some(qp) else None;
    var ownedCq := if cqOk && qpOk then Some(cq) else None;
    var c := CleanupTrace(owned, ownedCq, id);
    ReplayAppend(live, a + b, c);
    ReplayAppend(live, a, b);
    ClientInitNoLeak(live, evCh, before, dst, id, true, true);
    DummyCqQpNoLeak(live + {id}, id, cq, qp, cqOk, qpOk);
    CleanupReleasesOwned(Replay(live, a + b), owned, ownedCq, id);
  }
}

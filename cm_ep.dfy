/**
 * The rdmacm connection-manager endpoint (`uct_rdmacm_cm_ep_t`): creation
 * (parameter checks, field initialisation, client or server path), assignment
 * of a unique queue-pair number through a dummy queue pair, disconnect and
 * cleanup. Each operation is proved to make exactly the external calls its
 * trace in `CmEpSpec` lists, which in turn are proved to leak nothing.
 */
module CmEp {
  import opened Wrappers
  import opened CmTypes
  import opened Verbs
  import opened CmEpSpec

  /** The `qp_num` member of `struct rdma_conn_param`, which the endpoint fills in. */
  class ConnParam {
    var qpNum: nat

    constructor (qpNum: nat)
      ensures this.qpNum == qpNum
    {
      this.qpNum := qpNum;
    }
  }

  /**
   * `uct_rdmacm_create_dummy_cq_qp`: creates a one-entry completion queue and a
   * minimal UD queue pair on the device of `id`. The two out-pointers are the
   * optional results; `None` means the pointer was not written.
   */
  method CreateDummyCqQp(w: World, id: Handle, cqOk: bool, qpOk: bool, qpNum: nat)
    returns (status: Status, cq: Option<Handle>, qp: Option<Handle>)
    requires w.Valid() && id in w.live
    modifies w
    ensures w.Valid()
    ensures status == (if cqOk && qpOk then Ok else ErrIoError)
    ensures w.log == old(w.log) +
              DummyCqQpTrace(id, CqHandle(old(w.next)), QpHandle(old(w.next) + 1, qpNum), cqOk, qpOk)
    ensures status == Ok ==>
              cq == Some(CqHandle(old(w.next))) && qp == Some(QpHandle(old(w.next) + 1, qpNum)) &&
              cq.value !in old(w.live) && qp.value !in old(w.live) &&
              w.live == old(w.live) + {cq.value, qp.value}
    ensures status != Ok ==> cq == None && qp == None && w.live == old(w.live)
  {
    var newCq := w.CreateCq(id, DummyCqe, cqOk);
    if newCq.None? {
      return ErrIoError, None, None;
    }
    var attr := QpInitAttr(newCq, newCq, QptUd, QpCap(2, 2, 1, 1));
    var newQp := w.CreateQp(id, attr, qpOk, qpNum);
    if newQp.None? {
      var _ := w.DestroyCq(newCq.value, 0);
      return ErrIoError, None, None;
    }
    return Ok, newCq, newQp;
  }

  class Endpoint {
    var cm: Option<Cm>
    var privPackCb: Option<FnPtr>
    var connectCb: Option<FnPtr>
    var disconnectCb: Option<FnPtr>
    var userData: Option<DataPtr>
    var id: Option<Handle>
    var cq: Option<Handle>
    var qp: Option<Handle>

    /** The endpoint's fields as one value. */
    function View(): (v: EpView)
      reads this
    {
      EpView(cm, privPackCb, connectCb, disconnectCb, userData, id, cq, qp)
    }

    /** The handles the endpoint owns. */
    ghost function Owned(): (hs: set<Handle>)
      reads this
    {
      Elems(id) + Elems(cq) + Elems(qp)
    }

    /** The endpoint holds a live connection id and, optionally, a live dummy completion queue and queue pair. */
    ghost predicate Owns(w: World)
      reads this, w
    {
      id.Some? && id.value.IdHandle? &&
      (cq.Some? ==> cq.value.CqHandle?) &&
      (qp.Some? ==> qp.value.QpHandle?) &&
      Owned() <= w.live
    }

    /** The storage the class framework allocates before running `Init`. */
    constructor ()
      ensures View() == EpView(None, None, None, None, None, None, None, None)
    {
      cm, privPackCb, connectCb, disconnectCb, userData := None, None, None, None, None;
      id, cq, qp := None, None, None;
    }

    /**
     * `UCS_CLASS_INIT_FUNC(uct_rdmacm_cm_ep_t)`. `createIdRet` and `resolveRet`
     * are what `rdma_create_id` and `rdma_resolve_addr` return.
     */
    method Init(p: EpParams, w: World, createIdRet: int, resolveRet: int) returns (status: Status)
      requires w.Valid()
      modifies this, w
      ensures w.Valid()
      ensures status == InitStatus(p, createIdRet, resolveRet)
      // a rejected parameter set writes nothing and acquires nothing
      ensures Validate(p) != Ok ==> unchanged(this) && unchanged(w)
      ensures Validate(p) == Ok ==>
                cm == Some(p.cm) &&
                privPackCb == (if FieldSockaddrPackCb in p.fieldMask then p.sockaddrPackCb else None) &&
                disconnectCb == (if FieldSockaddrDisconnectCb in p.fieldMask then p.disconnectCb else None) &&
                userData == (if FieldUserData in p.fieldMask then p.userData else None) &&
                cq == None && qp == None
      // client path: taken whenever an address is given, even with a connection request
      ensures Validate(p) == Ok && FieldSockaddr in p.fieldMask ==>
                connectCb == p.sockaddrConnectCbClient &&
                // a failed resolve leaves the destroyed id in the field
                id == (if createIdRet == 0 then Some(IdHandle(old(w.next))) else old(id)) &&
                w.log == old(w.log) +
                  ClientInitTrace(p.cm.evCh, View().(id := old(id)), p.sockaddr,
                                  IdHandle(old(w.next)), createIdRet == 0, resolveRet == 0)
      // server path: acquires nothing
      ensures Validate(p) == Ok && FieldSockaddr !in p.fieldMask ==>
                unchanged(w) && connectCb == old(connectCb) && id == old(id)
      ensures status == Ok ==>
                Owns(w) && id == Some(IdHandle(old(w.next))) && id.value !in old(w.live) &&
                w.live == old(w.live) + {id.value} &&
                w.log[|w.log| - 1] == ResolveAddr(id.value, p.sockaddr, ResolveTimeoutMs, View())
      ensures status != Ok ==> w.live == old(w.live)
    {
      if FieldCm !in p.fieldMask {
        return ErrInvalidParam;
      }
      if FieldSockaddrCbFlags !in p.fieldMask || CbFlagAsync !in p.sockaddrCbFlags {
        return ErrUnsupported;
      }
      if FieldSockaddr !in p.fieldMask && FieldConnRequest !in p.fieldMask {
        return ErrInvalidParam;
      }

      cm := Some(p.cm);
      privPackCb := if FieldSockaddrPackCb in p.fieldMask then p.sockaddrPackCb else None;
      disconnectCb := if FieldSockaddrDisconnectCb in p.fieldMask then p.disconnectCb else None;
      userData := if FieldUserData in p.fieldMask then p.userData else None;
      cq := None;
      qp := None;

      if FieldSockaddr in p.fieldMask {
        status := ClientInit(p, w, createIdRet, resolveRet);
      } else if FieldConnRequest in p.fieldMask {
        status := ServerInit(p);
      } else {
        status := ErrInvalidParam;
      }
    }

    /**
     * `uct_rdamcm_cm_ep_client_init`: stores the connect callback, creates the
     * connection id, and arms address resolution as its very last action,
     * destroying the id again if that fails.
     */
    method ClientInit(p: EpParams, w: World, createIdRet: int, resolveRet: int) returns (status: Status)
      requires w.Valid() && cm.Some?
      modifies this`connectCb, this`id, w
      ensures w.Valid()
      ensures connectCb == p.sockaddrConnectCbClient
      ensures status == (if createIdRet == 0 && resolveRet == 0 then Ok else ErrIoError)
      ensures w.log == old(w.log) +
                ClientInitTrace(cm.value.evCh, old(View()).(connectCb := p.sockaddrConnectCbClient),
                                p.sockaddr, IdHandle(old(w.next)), createIdRet == 0, resolveRet == 0)
      ensures id == if createIdRet == 0 then Some(IdHandle(old(w.next))) else old(id)
      ensures status == Ok ==> id.value !in old(w.live) && w.live == old(w.live) + {id.value}
      ensures status != Ok ==> w.live == old(w.live)
    {
      connectCb := p.sockaddrConnectCbClient;

      var ret, newId := w.CreateId(cm.value.evCh, View(), PsTcp, createIdRet);
      if ret != 0 {
        return ErrIoError;
      }
      id := newId;

      // every field has its final value before resolution is armed
      ret := w.ResolveAddr(id.value, p.sockaddr, ResolveTimeoutMs, View(), resolveRet);
      if ret != 0 {
        w.DestroyId(id.value);
        return ErrIoError;
      }
      return Ok;
    }

    /** `uct_rdamcm_cm_ep_server_init`: accepting connections is not implemented. */
    method ServerInit(p: EpParams) returns (status: Status)
      ensures status == ErrNotImplemented
    {
      return ErrNotImplemented;
    }

    /**
     * `uct_rdamcm_cm_ep_set_qp_num`: creates the dummy completion queue and
     * queue pair, keeps them on the endpoint and writes the queue pair's number
     * into `connParam`. On failure nothing is written and nothing stays live.
     */
    method SetQpNum(connParam: ConnParam, w: World, cqOk: bool, qpOk: bool, qpNum: nat) returns (status: Status)
      requires w.Valid() && Owns(w)
      modifies this`cq, this`qp, connParam, w
      ensures w.Valid()
      ensures status == (if cqOk && qpOk then Ok else ErrIoError)
      ensures w.log == old(w.log) +
                DummyCqQpTrace(id.value, CqHandle(old(w.next)), QpHandle(old(w.next) + 1, qpNum), cqOk, qpOk)
      ensures status == Ok ==>
                Owns(w) &&
                cq == Some(CqHandle(old(w.next))) && qp == Some(QpHandle(old(w.next) + 1, qpNum)) &&
                connParam.qpNum == qp.value.qpNum &&
                w.live == old(w.live) + {cq.value, qp.value}
      ensures status != Ok ==> unchanged(this, connParam) && w.live == old(w.live)
    {
      var newCq, newQp;
      status, newCq, newQp := CreateDummyCqQp(w, id.value, cqOk, qpOk, qpNum);
      if status != Ok {
        return status;
      }
      cq := newCq;
      qp := newQp;
      connParam.qpNum := qp.value.qpNum;
      return Ok;
    }

    /**
     * `uct_rdmacm_cm_ep_disconnect`: asks for a graceful disconnect. `ret` is
     * what `rdma_disconnect` returns; the endpoint itself is never modified.
     */
    method Disconnect(w: World, ret: int) returns (status: Status)
      requires w.Valid() && Owns(w)
      modifies w`log, w`live
      ensures w.Valid()
      ensures status == (if ret != 0 then ErrIoError else Ok)
      ensures w.log == old(w.log) + [Event.Disconnect(id.value)]
      ensures w.live == old(w.live)
    {
      var r := w.Disconnect(id.value, ret);
      if r != 0 {
        return ErrIoError;
      }
      return Ok;
    }

    /**
     * `UCS_CLASS_CLEANUP_FUNC(uct_rdmacm_cm_ep_t)`: under the async lock,
     * destroys the queue pair and the completion queue when present and then
     * the id. A failing destroy is only warned about; `destroyQpRet` and
     * `destroyCqRet` are what the driver returns.
     */
    method Cleanup(w: World, destroyQpRet: int, destroyCqRet: int)
      requires w.Valid() && Owns(w)
      modifies w`log, w`live
      ensures w.Valid()
      ensures w.log == old(w.log) + CleanupTrace(qp, cq, id.value)
      ensures w.live == old(w.live) - Owned()
      ensures Owned() !! w.live
    {
      w.AsyncBlock();
      if qp.Some? {
        var ret := w.DestroyQp(qp.value, destroyQpRet);
        // a non-zero ret is reported as a warning and teardown goes on
      }
      if cq.Some? {
        var ret := w.DestroyCq(cq.value, destroyCqRet);
        // a non-zero ret is reported as a warning and teardown goes on
      }
      w.DestroyId(id.value);
      w.AsyncUnblock();
    }
  }
}

/**
 * Values shared by an rdmacm connection-manager endpoint and the resources it
 * acquires: status codes, endpoint creation parameters, opaque kernel handles
 * and a snapshot of the endpoint's fields.
 */
module CmTypes {
  import opened Wrappers

  /** The `ucs_status_t` values this endpoint can return. */
  datatype Status = Ok | ErrInvalidParam | ErrUnsupported | ErrNotImplemented | ErrIoError

  /**
   * The bits of `uct_ep_params_t::field_mask` the endpoint looks at. A mask is
   * the set of bits that are on; other bits of the mask do not affect it.
   */
  datatype ParamField =
    | FieldCm
    | FieldSockaddrCbFlags
    | FieldSockaddr
    | FieldConnRequest
    | FieldSockaddrPackCb
    | FieldSockaddrDisconnectCb
    | FieldUserData

  /** The bits of `uct_cb_flags` (`sockaddr_cb_flags`). */
  datatype CbFlag = CbFlagReserved | CbFlagAsync

  /** Address of a user callback function. */
  type FnPtr = nat

  /** Opaque user data pointer. */
  type DataPtr = nat

  /** The owning connection manager, reduced to the event channel it provides. */
  datatype Cm = Cm(evCh: nat)

  /** Destination socket address, passed through to address resolution. */
  datatype SockAddr = SockAddr(addr: nat)

  /**
   * `uct_ep_params_t` as far as the endpoint reads it. A pointer field that is
   * NULL in the caller's structure is `None`.
   */
  datatype EpParams = EpParams(
    fieldMask: set<ParamField>,
    cm: Cm,
    sockaddrCbFlags: set<CbFlag>,
    sockaddr: SockAddr,
    connRequest: nat,
    sockaddrPackCb: Option<FnPtr>,
    sockaddrConnectCbClient: Option<FnPtr>,
    disconnectCb: Option<FnPtr>,
    userData: Option<DataPtr>)

  /**
   * A kernel object handed out by ibverbs or librdmacm: a completion queue, a
   * queue pair (with the number the driver assigned it) or a connection id.
   * `n` tells apart the handles created during one run.
   */
  datatype Handle = CqHandle(n: nat) | QpHandle(n: nat, qpNum: nat) | IdHandle(n: nat)

  /**
   * The fields of `uct_rdmacm_cm_ep_t`, as the asynchronous event handler
   * would observe them.
   */
  datatype EpView = EpView(
    cm: Option<Cm>,
    privPackCb: Option<FnPtr>,
    connectCb: Option<FnPtr>,
    disconnectCb: Option<FnPtr>,
    userData: Option<DataPtr>,
    id: Option<Handle>,
    cq: Option<Handle>,
    qp: Option<Handle>)
}

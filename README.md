# rdmacm connection-manager endpoint, modelled in Dafny

This project models the endpoint of UCX's rdmacm connection manager
(`uct_rdmacm_cm_ep_t`, in `src/uct/ib/rdmacm/rdmacm_cm_ep.c`). It covers how the
endpoint is created, how it obtains a unique queue-pair number, and how it is
disconnected and torn down. The file's logic sits around calls into
librdmacm and ibverbs, so the model is a small state machine over abstract
resources:

- `CmTypes` (`cm_types.dfy`) holds the values: `ucs_status_t` codes, the
  endpoint parameters (`uct_ep_params_t`) with their field mask, kernel handles
  (completion queue, queue pair with its driver-assigned number, connection id),
  and `EpView`, a snapshot of the endpoint's fields.
- `Verbs` (`verbs.dfy`) is the world outside the endpoint. The class `World`
  stands for ibverbs, librdmacm and the worker's async context. Every call into
  them appends an `Event` to a ghost log. The ghost set of live handles is
  always what `Replay` of that log yields. A call's outcome (success flag,
  return code, assigned `qp_num`) is an input to the call. So every contract
  holds for every way the library may behave.
- `CmEpSpec` (`cm_ep_spec.dfy`) states the behaviour as values:
  - the parameter checks (`Validate`);
  - the overall creation status (`InitStatus`);
  - the exact call sequence of each operation (`DummyCqQpTrace`,
    `ClientInitTrace`, `CleanupTrace`).

  Its lemmas prove that these sequences leak nothing on failure, release in
  the order qp, cq, id inside the async bracket, and arm address resolution
  last.
- `CmEp` (`cm_ep.dfy`) is the endpoint itself. `Endpoint` is a class with
  the C struct's fields. Each method changes what its `modifies` clause names.
  Each method is proved to append exactly its trace to the world's log and to
  leave the live set as the trace lemmas say.

`CreateId` and `ResolveAddr` events carry a snapshot of the endpoint's fields
at the moment of the call. This is how the model states the ordering rule from
the comment at lines 93–97: when `rdma_resolve_addr` is issued, every field the
event handler may read already has its final value. After a successful creation,
the last logged event is the resolve call, and its snapshot equals the final
state of the endpoint.

The field mask and the callback flags are modelled as sets of named bits.
`FieldSockaddr` together with `FieldConnRequest` is accepted, and the client
path runs. This follows the code (line 182), where an address takes
precedence.

## Model

| member | source | states |
|---|---|---|
| `CmEpSpec.Validate` | src/uct/ib/rdmacm/rdmacm_cm_ep.c:145-164 | the result is `Ok` iff the CM bit is set, asynchronous callbacks are requested (the CB_FLAGS bit and `UCT_CB_FLAG_ASYNC`) and the address or connection-request bit is set; `ErrUnsupported` iff the CM bit is set but async is not requested; a missing CM bit gives `ErrInvalidParam` whatever else is wrong |
| `CmEpSpec.ValidatedHasRole` | src/uct/ib/rdmacm/rdmacm_cm_ep.c:182-190 | once validation passes, the "neither address nor connection request" dispatch branch cannot be taken, and the client path is chosen exactly when the address bit is set |
| `CmEpSpec.InitStatus` | src/uct/ib/rdmacm/rdmacm_cm_ep.c:140-198 | creation returns the validation error when validation fails; with an address, `Ok` iff both `rdma_create_id` and `rdma_resolve_addr` return 0, otherwise `ErrIoError`; without one, `ErrNotImplemented`; only the client path can succeed |
| `CmEp.Endpoint.Init` | src/uct/ib/rdmacm/rdmacm_cm_ep.c:140-198 | a rejected parameter set leaves the endpoint and the world unchanged; otherwise `cm` is stored; `priv_pack_cb`, `disconnect_cb` and `user_data` equal the parameter exactly when their bit is set and are NULL otherwise; `cq`/`qp` are NULL; the client path runs whenever the address bit is set (its log is exactly `ClientInitTrace`, and `id` holds the created id, still set after a failed resolve destroyed it, or is unchanged when creation failed); the server path acquires nothing; on `Ok` the endpoint owns one new live id, and the last logged call is the resolve, issued with the endpoint already in its final state; on failure the live set is unchanged |
| `CmEp.Endpoint.ClientInit` | src/uct/ib/rdmacm/rdmacm_cm_ep.c:79-113 | the connect callback is stored before the id is created (the `CreateId` snapshot holds it); the log is exactly create-id, then resolve with a 1000 ms timeout, then destroy-id if the resolve failed; `ErrIoError` iff either call fails; on failure nothing new stays live |
| `CmEp.Endpoint.ServerInit` | src/uct/ib/rdmacm/rdmacm_cm_ep.c:115-119 | always returns `ErrNotImplemented` and touches nothing |
| `CmEp.CreateDummyCqQp` | src/uct/ib/rdmacm/rdmacm_cm_ep.c:10-56 | the log is exactly `DummyCqQpTrace`: a one-entry CQ, then a UD QP on it, and the CQ is destroyed if the QP fails; `ErrIoError` iff either creation fails; on failure no out-value is produced and the live set is unchanged; on success both new, previously dead handles are returned and live |
| `CmEpSpec.DummyCqQpNoLeak` | src/uct/ib/rdmacm/rdmacm_cm_ep.c:19-55 | replaying the dummy-allocation calls leaves the live set unchanged on either failure, and adds exactly the new CQ and QP on success |
| `CmEpSpec.DummyCqQpRequests` | src/uct/ib/rdmacm/rdmacm_cm_ep.c:20-37 | the CQ is requested with 1 entry on the id's device; the QP is requested as UD, on the id's protection domain, with `send_cq` and `recv_cq` both the new CQ and capacities 2/2 work requests and 1/1 SGE; a failed QP request appears exactly when the CQ succeeded and the QP did not |
| `CmEp.Endpoint.SetQpNum` | src/uct/ib/rdmacm/rdmacm_cm_ep.c:58-77 | status is the allocator's status unchanged; on success `cq`/`qp` hold the new handles, `conn_param->qp_num` is the new QP's number and the endpoint still owns only live handles; on failure the endpoint and `conn_param` are unmodified and nothing new is live |
| `CmEp.Endpoint.Disconnect` | src/uct/ib/rdmacm/rdmacm_cm_ep.c:121-138 | `ErrIoError` iff `rdma_disconnect` returns non-zero, otherwise `Ok`; exactly one disconnect call on the endpoint's id is logged; the endpoint (not in the frame) and the live set are unchanged |
| `CmEp.Endpoint.Cleanup` | src/uct/ib/rdmacm/rdmacm_cm_ep.c:200-227 | the log is exactly `CleanupTrace(qp, cq, id)` for every return code of the two destroys, so a failing destroy does not stop later releases; afterwards none of the endpoint's handles is live and nothing else was released |
| `CmEpSpec.CleanupReleasesOwned` | src/uct/ib/rdmacm/rdmacm_cm_ep.c:206-226 | replaying the cleanup calls removes exactly the QP if present, the CQ if present and the id from the live set |
| `CmEpSpec.CleanupOrder` | src/uct/ib/rdmacm/rdmacm_cm_ep.c:206-226 | the cleanup calls start with the async block and end with the unblock; everything in between is a release; releases come in the order QP, CQ, id, and the id is released last |
| `CmEpSpec.ClientInitNoLeak` | src/uct/ib/rdmacm/rdmacm_cm_ep.c:85-112 | replaying the client-init calls leaves the live set unchanged if id creation or resolution fails, and adds exactly the new id on success |
| `CmEpSpec.ClientInitResolveLast` | src/uct/ib/rdmacm/rdmacm_cm_ep.c:85-105 | for every outcome of `rdma_create_id` and `rdma_resolve_addr`: the id is created first; a resolve is issued iff the id was created, then exactly once, as the second call, on that id with the 1000 ms timeout, and with the endpoint as it stood at id creation changed only in its stored id; only the id's destroy may follow it, and on success it is the last call |
| `CmEpSpec.ClientLifecycleNoLeak` | src/uct/ib/rdmacm/rdmacm_cm_ep.c:10-227 | a client endpoint created successfully, then given a dummy CQ/QP (or failing to get one), then cleaned up, leaves the live set as it found it, whatever the allocation outcome |

## Left out

- The behaviour of librdmacm and ibverbs is not modelled. `ibv_create_cq`, `ibv_create_qp`, `ibv_destroy_qp`, `ibv_destroy_cq`, `rdma_create_id`, `rdma_resolve_addr` and `rdma_disconnect` are opaque calls whose outcome is an input. `uct_rdmacm_cm_destroy_id` is defined in `rdmacm_cm.c`, which is not part of this model; it always releases the id.
- A destroy call releases its handle whatever it returns. What a failing `ibv_destroy_*` leaves behind in the driver is not modelled.
- The `qp_num` the driver assigns is an input. Its uniqueness among live queue pairs is a property of the driver, not of this file, and is not proved.
- `UCS_ASYNC_BLOCK`/`UCS_ASYNC_UNBLOCK` are only recorded as events. Mutual exclusion with the event-delivery thread, and the race described at lines 93–97, are concurrency matters. The model states the race-freedom condition as a fact about field values at the resolve call.
- The `UCS_CLASS_*` framework is not modelled: allocation, `UCS_CLASS_CALL_SUPER_INIT` (line 167), freeing the object when init fails, and the `ucs_derived_of` casts. `Endpoint`'s constructor only provides blank storage. The worker lookup at lines 202–203 is not modelled.
- Logging, `ucs_sockaddr_str` and `rdma_get_peer_addr` are used only to format messages, so they are left out.
- The bit values of `UCT_EP_PARAM_FIELD_*` and `UCT_CB_FLAG_*` are defined in `uct.h`, which is not part of this model. Masks are modelled as sets of named bits, and bits the endpoint does not read are not modelled.
- The private-data header argument of `uct_rdamcm_cm_ep_set_qp_num` and the `flags` argument of `uct_rdmacm_cm_ep_disconnect` are never read, so they are not parameters of the model.
- CmEp.CreateDummyCqQp: the C out-pointers `cq_p`/`qp_p` become optional results. "Left untouched on failure" is stated as `None`, not as the caller's storage being unchanged.
- CmEp.CreateDummyCqQp: the unwind path ignores the return code of `ibv_destroy_cq`. The model passes 0 for it, and nothing depends on that value.
- CmEp.Endpoint.SetQpNum: a second call on the same endpoint overwrites `cq`/`qp` and leaks the earlier pair. Callers must call it once per endpoint, as in the source. The model does not forbid a second call.
- The 1000 ms resolve timeout is only passed to the library. The model records it in the resolve event and gives it no other behaviour.

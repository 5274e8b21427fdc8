/** Connections, calls and the commands the broker gives its workers. */
module Rpc {
  import opened Wrappers
  import opened Frames

  /** A router or dealer connection; `sender` is the peer's identity, empty for a dealer. */
  datatype ConnInfo = ConnInfo(isRouter: bool, index: nat, sender: Frame)

  /**
   * A call waiting for its answer. `addr` tells controllers apart, as their
   * addresses do; `conn` records the connection the call was made on.
   */
  datatype Ctrl = Ctrl(addr: nat, eventId: nat, timeoutMs: int, conn: ConnInfo)

  const NO_TIMEOUT := -1

  datatype ReqHeader = ReqHeader(eventId: nat, service: string, rpcMethod: string)

  datatype RespHeader = RespHeader(eventId: nat, errorCode: Option<int>)

  /** What protobuf makes of the header frame. */
  datatype RpcHeader =
    | Unparsable
    | Parsed(req: Option<ReqHeader>, resp: Option<RespHeader>)

  datatype Cmd =
    | RunClosure(closure: nat)
    | StartRpc(ctrl: Ctrl)
    | HandleData(info: ConnInfo, header: Frame, payload: Frame)
    | HandleTimeout(eventId: nat)
    | RegisterSvc(info: ConnInfo, name: string, svc: nat)
    | QuitWorker
}

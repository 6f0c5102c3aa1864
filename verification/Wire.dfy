/** Messages (internal/protocol/protocol.go) and the sending end of a WebSocket. */
module Wire {
  import opened Types
  import opened MachineStore

  const REGISTER := "register"
  const HEARTBEAT := "heartbeat"
  const METRICS := "metrics"
  const EXEC_REQUEST := "exec_request"
  const EXEC_RESPONSE := "exec_response"

  datatype ExecRequest = ExecRequest(script: string, timeout: int, agentIDs: seq<AgentId>)

  /** What the data of a message decodes to; Unreadable decodes to nothing. */
  datatype Data =
    | InfoData(info: AgentInfo)
    | MetricsData(metrics: Metrics)
    | RequestData(request: ExecRequest)
    | ResponseData(agentID: AgentId, outcome: Outcome)
    | Unreadable

  datatype Message = Message(kind: string, agentID: AgentId, reqID: ReqId, data: Data)

  /** One WebSocket message as it is read: it may not be a message of the protocol at all. */
  datatype Frame = Malformed | Readable(msg: Message)

  class Conn {
    var open: bool
    var sent: seq<Message>

    constructor ()
      ensures open && sent == []
    {
      open, sent := true, [];
    }

    method WriteMessage(msg: Message) returns (ok: bool)
      modifies this`sent
      ensures ok == open
      ensures sent == if open then old(sent) + [msg] else old(sent)
    {
      if open {
        sent := sent + [msg];
      }
      return open;
    }

    method Close()
      modifies this`open
      ensures !open
    {
      open := false;
    }
  }
}

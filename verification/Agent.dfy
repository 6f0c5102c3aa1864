/** The agent's end (cmd/agent/main.go): one connection at a time, and answers to exec requests. */
module Agent {
  import opened Types
  import opened Wire
  import MachineStore
  import M = GatewayManager
  import C = Cluster
  import R = ClusterRuns
  import S = Master
  import G = GatewayMachine
  import H = History

  class Agent {
    const id: AgentId
    var conn: Conn?

    ghost function Link(): set<Conn>
      reads this
    {
      if conn == null then {} else {conn}
    }

    constructor (id: AgentId)
      ensures this.id == id && conn == null
    {
      this.id := id;
      conn := null;
    }

    /** Written to the connection of the moment; nothing happens before the first one. */
    method Send(msg: Message)
      modifies Link()`sent
      ensures conn != null ==> conn.sent == M.SentIfOpen(conn.open, old(conn.sent), [msg])
    {
      if conn == null {
        return;
      }
      var _ := conn.WriteMessage(msg);
    }

    /** After dialing: the new connection takes over and carries a register first. */
    method Connected(dialed: Conn, info: MachineStore.AgentInfo)
      modifies this, dialed`sent
      ensures conn == dialed
      ensures dialed.sent == M.SentIfOpen(dialed.open, old(dialed.sent), [Message(REGISTER, id, "", InfoData(info))])
    {
      conn := dialed;
      Send(Message(REGISTER, id, "", InfoData(info)));
    }

    /** run is what executor.RunScript yields for the request's script and timeout. */
    method HandleExecRequest(reqID: ReqId, request: ExecRequest, run: (string, int) -> Outcome)
      modifies Link()`sent
      ensures conn != null ==>
        conn.sent == M.SentIfOpen(conn.open, old(conn.sent),
                                  [Message(EXEC_RESPONSE, id, reqID, ResponseData(id, run(request.script, request.timeout)))])
    {
      var outcome := run(request.script, request.timeout);
      Send(Message(EXEC_RESPONSE, id, reqID, ResponseData(id, outcome)));
    }

    /** The exec branch of handleMessage: a request that does not decode is ignored. */
    method HandleMessage(msg: Message, run: (string, int) -> Outcome)
      modifies Link()`sent
      ensures conn != null ==> conn.sent == M.SentIfOpen(conn.open, old(conn.sent), Answers(id, msg, run))
    {
      if msg.kind == EXEC_REQUEST && msg.data.RequestData? {
        HandleExecRequest(msg.reqID, msg.data.request, run);
      }
    }
  }

  /** What an agent answers to a message: one response to an exec request, nothing else. */
  function Answers(id: AgentId, msg: Message, run: (string, int) -> Outcome): seq<Message> {
    if msg.kind == EXEC_REQUEST && msg.data.RequestData?
    then [Message(EXEC_RESPONSE, id, msg.reqID, ResponseData(id, run(msg.data.request.script, msg.data.request.timeout)))]
    else []
  }

  /** The response as the gateway passes it on, and as the master reads it. */
  function AnswerArrives(id: AgentId, msg: Message, run: (string, int) -> Outcome, now: int): seq<S.Arrival> {
    var passed := M.Stamped(id, Readables(Answers(id, msg, run)));
    seq(|passed|, i requires 0 <= i < |passed| => S.Arrival(Readable(passed[i]), now))
  }

  function Readables(msgs: seq<Message>): seq<Frame> {
    seq(|msgs|, i requires 0 <= i < |msgs| => Readable(msgs[i]))
  }

  /** Stamped and read, the response is filed as the agent's outcome of the script that was asked for. */
  lemma AnswerIsFiled(records: seq<H.ExecRecord>, id: AgentId, msg: Message, run: (string, int) -> Outcome, now: int)
    requires msg.kind == EXEC_REQUEST && msg.data.RequestData?
    ensures S.RecordsAfter(records, AnswerArrives(id, msg, run, now))
            == (var o := run(msg.data.request.script, msg.data.request.timeout);
                H.Updated(records, msg.reqID, H.ExecResult(id, o.exitCode, o.output, o.error, true), now))
  {
    var answers := Answers(id, msg, run);
    var frames := Readables(answers);
    assert frames[..0] == [] && frames == [Readable(answers[0])];
    assert M.Stamped(id, frames) == [answers[0]];
    var inbox := AnswerArrives(id, msg, run, now);
    assert inbox == [S.Arrival(Readable(answers[0]), now)] && inbox[..0] == [];
  }

  /**
    Main result: from any state of the cluster in which an order is on its way to an agent,
    the steps that take it, run it, and bring the response back exist and leave the history
    that the agent's, the gateway's and the master's own handlers produce for that message.
   */
  lemma AnswerReachesRecord(s: C.State, i: nat, msg: Message, run: (string, int) -> Outcome, via: G.ConnId, now: int)
      returns (s': C.State)
    requires C.Enabled(s, C.Take(i)) && R.WayBackOpen(s, via) && s.gw.conns[via].owner == R.Receiver(s, i)
    requires msg.kind == EXEC_REQUEST && msg.data.RequestData? && S.OrderOf(msg) == s.net.parcels[i].order
    ensures var outcome := run(msg.data.request.script, msg.data.request.timeout);
            && C.Runs(s, R.AnswerSteps(s, i, outcome, via, now), s')
            && s'.log.runs == s.log.runs + {C.Run(R.Receiver(s, i), s.net.parcels[i].conn, msg.reqID,
                                                  msg.data.request.script, msg.data.request.timeout, outcome)}
    ensures s'.master.history == S.RecordsAfter(s.master.history, AnswerArrives(R.Receiver(s, i), msg, run, now))
    ensures s'.net == s.net.(parcels := Without(s.net.parcels, i)) && s'.gw == s.gw
  {
    AnswerIsFiled(s.master.history, R.Receiver(s, i), msg, run, now);
    s' := R.AnswerRuns(s, i, run(msg.data.request.script, msg.data.request.timeout), via, now);
  }
}

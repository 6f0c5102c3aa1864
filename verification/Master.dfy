/**
  The master's handlers (internal/master/api/api.go) and its end of the gateway link
  (internal/master/ws/ws.go), each run without interference.
 */
module Master {
  import opened Types
  import opened Wire
  import opened MachineStore
  import S = StoreRuns
  import H = History
  import C = Cluster
  import R = ClusterRuns
  import M = GatewayManager

  class GatewayConn {
    var conn: Conn?

    ghost function Link(): set<Conn>
      reads this
    {
      if conn == null then {} else {conn}
    }

    constructor ()
      ensures conn == null
    {
      conn := null;
    }

    method SetConn(c: Conn)
      modifies this`conn, Link()`open
      ensures conn == c
      ensures old(conn) != null ==> !old(conn).open
    {
      if conn != null {
        conn.Close();
      }
      conn := c;
    }

    method ClearConn()
      modifies this`conn
      ensures conn == null
    {
      conn := null;
    }

    method Send(msg: Message) returns (ok: bool)
      modifies Link()`sent
      ensures ok == (conn != null ==> conn.open)
      ensures conn != null ==> conn.sent == M.SentIfOpen(conn.open, old(conn.sent), [msg])
    {
      if conn == null {
        return true;
      }
      ok := conn.WriteMessage(msg);
    }
  }

  datatype Response = BadRequest | Started(reqID: ReqId, agentIDs: seq<AgentId>)

  /** One exec request for each of the agents, in order. */
  function FanOutOf(reqID: ReqId, ids: seq<AgentId>, request: ExecRequest): seq<Message> {
    seq(|ids|, i requires 0 <= i < |ids| => Message(EXEC_REQUEST, ids[i], reqID, RequestData(request)))
  }

  /** One exec request for each listed agent. */
  function FanOut(reqID: ReqId, request: ExecRequest): seq<Message> {
    FanOutOf(reqID, request.agentIDs, request)
  }

  /** ids lists each key whose record has property keep once. */
  ghost predicate Selects(ids: seq<AgentId>, table: map<AgentId, AgentInfo>, keep: AgentInfo -> bool) {
    && (forall i, j :: 0 <= i < j < |ids| ==> ids[i] != ids[j])
    && (forall a :: a in ids <==> a in table && keep(table[a]))
  }

  predicate OnlineIn(info: AgentInfo, group: string) {
    info.group == group && info.status == ONLINE
  }

  ghost predicate Keyed(table: map<AgentId, AgentInfo>) {
    forall k :: k in table ==> table[k].agentID == k
  }

  ghost predicate SomebodyOf(table: map<AgentId, AgentInfo>, group: string) {
    exists a :: a in table && OnlineIn(table[a], group)
  }

  /**
    Whom a batch goes to: the agents named in the request; if none is named, the online
    members of the group; and if there is no group, or nobody of it is online, everybody online.
   */
  ghost predicate Targets(table: map<AgentId, AgentInfo>, named: seq<AgentId>, group: string, ids: seq<AgentId>) {
    if named != [] then ids == named
    else if group != "" && SomebodyOf(table, group) then
      Selects(ids, table, (info: AgentInfo) => OnlineIn(info, group))
    else Selects(ids, table, IsOnline)
  }

  /** A message from the gateway and the time at which it is read. */
  datatype Arrival = Arrival(frame: Frame, at: int)

  /** What a message does to the inventory. */
  function EventOf(arrival: Arrival): Option<S.Event> {
    match arrival.frame
    case Malformed => None
    case Readable(msg) =>
      if msg.kind == REGISTER && msg.data.InfoData? then Some(S.Report(msg.agentID, msg.data.info, arrival.at))
      else if msg.kind == METRICS && msg.data.MetricsData? then Some(S.Measure(msg.agentID, msg.data.metrics, arrival.at))
      else if msg.kind == HEARTBEAT then Some(S.Heartbeat(msg.agentID, arrival.at))
      else None
  }

  function TableAfter(table: map<AgentId, AgentInfo>, inbox: seq<Arrival>): map<AgentId, AgentInfo> {
    if inbox == [] then table
    else
      var before := TableAfter(table, inbox[..|inbox| - 1]);
      match EventOf(inbox[|inbox| - 1])
      case Some(event) => S.Changed(before, event)
      case None => before
  }

  predicate IsAnswer(frame: Frame) {
    frame.Readable? && frame.msg.kind == EXEC_RESPONSE && frame.msg.data.ResponseData?
  }

  /** What the messages do to the history: answers are filed under the stamped id, always as done. */
  ghost function RecordsAfter(records: seq<H.ExecRecord>, inbox: seq<Arrival>): seq<H.ExecRecord> {
    if inbox == [] then records
    else
      var before := RecordsAfter(records, inbox[..|inbox| - 1]);
      var arrival := inbox[|inbox| - 1];
      if IsAnswer(arrival.frame) then
        var msg := arrival.frame.msg;
        H.Updated(before, msg.reqID, C.ResultOf(msg.agentID, msg.data.outcome), arrival.at)
      else before
  }

  class Server {
    const store: Store
    const history: H.ExecHistory
    const gateway: GatewayConn

    constructor (store: Store, history: H.ExecHistory, gateway: GatewayConn)
      ensures this.store == store && this.history == history && this.gateway == gateway
    {
      this.store, this.history, this.gateway := store, history, gateway;
    }

    ghost predicate Valid()
      reads store, history
    {
      store.Valid() && history.Valid()
    }

    /** The choice of targets in HandleBatchExec. */
    method ChooseTargets(named: seq<AgentId>, group: string) returns (ids: seq<AgentId>)
      requires Keyed(store.Table())
      ensures Targets(store.Table(), named, group, ids)
    {
      ids := named;
      if group != "" && |ids| == 0 {
        var machines, keys := store.GetMachinesByGroup(group);
        ids := OnlineOf(machines, keys, store.Table(), group);
        NoneSelected(ids, store.Table(), (info: AgentInfo) => OnlineIn(info, group));
      }
      if |ids| == 0 {
        var online, keys := store.GetOnlineMachines();
        ids := IdsOf(online);
        assert ids == keys;
      }
    }

    /** The fan-out loop of both exec handlers. */
    method SendAll(reqID: ReqId, request: ExecRequest)
      modifies gateway.Link()`sent
      ensures gateway.conn != null ==>
        gateway.conn.sent == M.SentIfOpen(gateway.conn.open, old(gateway.conn.sent), FanOut(reqID, request))
    {
      var all := FanOut(reqID, request);
      var i := 0;
      while i < |request.agentIDs|
        invariant 0 <= i <= |all|
        invariant gateway.conn != null ==>
          gateway.conn.sent == M.SentIfOpen(gateway.conn.open, old(gateway.conn.sent), all[..i])
      {
        assert all[..i + 1] == all[..i] + [all[i]];
        var _ := gateway.Send(Message(EXEC_REQUEST, request.agentIDs[i], reqID, RequestData(request)));
        i := i + 1;
      }
      assert all[..|all|] == all;
    }

    method HandleBatchExec(req: ExecRequest, group: string, reqID: ReqId, user: string, now: int) returns (response: Response)
      requires Valid() && Keyed(store.Table())
      modifies history, gateway.Link()`sent
      ensures Valid()
      ensures req.script == "" <==> response.BadRequest?
      ensures response.BadRequest? ==> history.records == old(history.records)
      ensures response.BadRequest? && gateway.conn != null ==> gateway.conn.sent == old(gateway.conn.sent)
      ensures response.Started? ==> response.reqID == reqID && Targets(old(store.Table()), req.agentIDs, group, response.agentIDs)
      ensures response.Started? ==>
        history.records == H.Added(old(history.records), history.maxSize,
                                   C.NewRecord(reqID, req.script, req.timeout, response.agentIDs, user, now))
      ensures response.Started? && gateway.conn != null ==>
        gateway.conn.sent == M.SentIfOpen(gateway.conn.open, old(gateway.conn.sent),
                                          FanOut(reqID, req.(agentIDs := response.agentIDs)))
    {
      if req.script == "" {
        return BadRequest;
      }
      var ids := ChooseTargets(req.agentIDs, group);
      assert Targets(old(store.Table()), req.agentIDs, group, ids);
      history.Add(C.NewRecord(reqID, req.script, req.timeout, ids, user, now));
      SendAll(reqID, req.(agentIDs := ids));
      return Started(reqID, ids);
    }

    /** The exec branch of HandleDashboardWS: no check of the script and no choice of targets. */
    method HandleDashboardExec(req: ExecRequest, reqID: ReqId, user: string, now: int)
      requires Valid()
      modifies history, gateway.Link()`sent
      ensures Valid()
      ensures history.records == H.Added(old(history.records), history.maxSize,
                                         C.NewRecord(reqID, req.script, req.timeout, req.agentIDs, user, now))
      ensures gateway.conn != null ==>
        gateway.conn.sent == M.SentIfOpen(gateway.conn.open, old(gateway.conn.sent), FanOut(reqID, req))
    {
      history.Add(C.NewRecord(reqID, req.script, req.timeout, req.agentIDs, user, now));
      SendAll(reqID, req);
    }

    /** The dispatch on one message from the gateway. */
    method HandleMessage(arrival: Arrival)
      requires Valid()
      modifies store, store.machines.Values, history
      ensures Valid() && fresh(store.machines.Values - old(store.machines.Values))
      ensures store.Table() == (match EventOf(arrival) case Some(event) => S.Changed(old(store.Table()), event) case None => old(store.Table()))
      ensures history.records ==
        if IsAnswer(arrival.frame)
        then H.Updated(old(history.records), arrival.frame.msg.reqID,
               C.ResultOf(arrival.frame.msg.agentID, arrival.frame.msg.data.outcome), arrival.at)
        else old(history.records)
    {
      if arrival.frame.Malformed? {
        return;
      }
      var msg := arrival.frame.msg;
      if msg.kind == REGISTER {
        if msg.data.InfoData? {
          store.UpdateMachine(msg.data.info.(agentID := msg.agentID), arrival.at);
        }
      } else if msg.kind == EXEC_RESPONSE {
        if msg.data.ResponseData? {
          var o := msg.data.outcome;
          history.UpdateResult(msg.reqID, H.ExecResult(msg.agentID, o.exitCode, o.output, o.error, true), arrival.at);
        }
      } else if msg.kind == METRICS {
        if msg.data.MetricsData? {
          store.UpdateMetrics(msg.agentID, msg.data.metrics, arrival.at);
        }
      } else if msg.kind == HEARTBEAT {
        store.UpdateMachine(S.Bare(msg.agentID), arrival.at);
      }
    }

    /** The read loop of HandleGatewayWS. */
    method HandleMessages(inbox: seq<Arrival>)
      requires Valid()
      modifies store, store.machines.Values, history
      ensures Valid() && fresh(store.machines.Values - old(store.machines.Values))
      ensures store.Table() == TableAfter(old(store.Table()), inbox)
      ensures history.records == RecordsAfter(old(history.records), inbox)
    {
      var i := 0;
      while i < |inbox|
        invariant 0 <= i <= |inbox|
        invariant Valid() && fresh(store.machines.Values - old(store.machines.Values))
        invariant store.Table() == TableAfter(old(store.Table()), inbox[..i])
        invariant history.records == RecordsAfter(old(history.records), inbox[..i])
      {
        assert inbox[..i + 1][..i] == inbox[..i];
        HandleMessage(inbox[i]);
        i := i + 1;
      }
      assert inbox[..|inbox|] == inbox;
    }

    /** One gateway connection, from its upgrade to the read error after inbox. */
    method HandleGatewayWS(conn: Conn, inbox: seq<Arrival>)
      requires Valid()
      modifies store, store.machines.Values, history, gateway`conn, gateway.Link()`open, conn`open
      ensures Valid() && gateway.conn == null && !conn.open
      ensures old(gateway.conn) != null ==> !old(gateway.conn).open
      ensures store.Table() == TableAfter(old(store.Table()), inbox)
      ensures history.records == RecordsAfter(old(history.records), inbox)
    {
      gateway.SetConn(conn);
      assert unchanged(store, store.machines.Values);
      HandleMessages(inbox);
      label Read:
      Hangup(conn);
      assert unchanged@Read(store, store.machines.Values);
    }

    /** What HandleGatewayWS defers. */
    method Hangup(conn: Conn)
      modifies gateway`conn, conn`open
      ensures gateway.conn == null && !conn.open
    {
      gateway.ClearConn();
      conn.Close();
    }
  }

  lemma NoneSelected(ids: seq<AgentId>, table: map<AgentId, AgentInfo>, keep: AgentInfo -> bool)
    requires Selects(ids, table, keep)
    ensures ids == [] <==> !exists a :: a in table && keep(table[a])
  {
    if ids != [] {
      assert ids[0] in ids;
    }
  }

  /** The loop that appends the ids of the listed machines. */
  method IdsOf(machines: seq<AgentInfo>) returns (ids: seq<AgentId>)
    ensures |ids| == |machines| && forall i :: 0 <= i < |ids| ==> ids[i] == machines[i].agentID
  {
    ids := [];
    var i := 0;
    while i < |machines|
      invariant 0 <= i <= |machines| && |ids| == i
      invariant forall j :: 0 <= j < i ==> ids[j] == machines[j].agentID
    {
      ids := ids + [machines[i].agentID];
      i := i + 1;
    }
  }

  /** The group loop of HandleBatchExec: the ids of the online machines among those listed. */
  method OnlineOf(machines: seq<AgentInfo>, ghost keys: seq<AgentId>, ghost table: map<AgentId, AgentInfo>, group: string)
    returns (ids: seq<AgentId>)
    requires Lists(keys, machines, table, (info: AgentInfo) => info.group == group) && Keyed(table)
    ensures Selects(ids, table, (info: AgentInfo) => OnlineIn(info, group))
  {
    ids := [];
    var i := 0;
    while i < |machines|
      invariant 0 <= i <= |machines|
      invariant forall j, k :: 0 <= j < k < |ids| ==> ids[j] != ids[k]
      invariant forall a :: a in ids <==> a in keys[..i] && table[a].status == ONLINE
    {
      if machines[i].status == ONLINE {
        ids := ids + [machines[i].agentID];
      }
      i := i + 1;
    }
    assert keys[..|machines|] == keys;
  }

  // ---------- whom a batch goes to, agent by agent ----------

  ghost predicate NobodyOnlineIn(table: map<AgentId, AgentInfo>, group: string) {
    forall a :: a in table && table[a].group == group ==> table[a].status != "online"
  }

  /** One agent is a target when none is named. */
  ghost predicate IsTarget(table: map<AgentId, AgentInfo>, group: string, a: AgentId) {
    && a in table && table[a].status == "online"
    && (group == "" || table[a].group == group || NobodyOnlineIn(table, group))
  }

  /** Named agents are taken as they are; otherwise each target is taken once, and nobody else. */
  lemma TargetsExactly(table: map<AgentId, AgentInfo>, named: seq<AgentId>, group: string, ids: seq<AgentId>)
    ensures named != [] ==> (Targets(table, named, group, ids) <==> ids == named)
    ensures named == [] ==>
      (Targets(table, named, group, ids)
       <==> (forall i, j :: 0 <= i < j < |ids| ==> ids[i] != ids[j]) && (forall a :: a in ids <==> IsTarget(table, group, a)))
  {
    assert SomebodyOf(table, group) <==> !NobodyOnlineIn(table, group);
    if SomebodyOf(table, group) {
      assert forall a :: a in table && OnlineIn(table[a], group) ==> table[a].status == "online";
    }
  }

  /** What goes on file for a batch is what was asked for, by whom and when, with nothing answered yet. */
  lemma BatchIsRecorded(records: seq<H.ExecRecord>, maxSize: nat, reqID: ReqId, request: ExecRequest, user: string, now: int)
    requires maxSize >= 1
    ensures var after := H.Added(records, maxSize, C.NewRecord(reqID, request.script, request.timeout, request.agentIDs, user, now));
            after != [] &&
            var record := after[|after| - 1];
            && record.id == reqID && record.script == request.script && record.timeout == request.timeout
            && record.agentIDs == request.agentIDs && record.results == map[] && record.status == "running"
            && record.startedAt == now && record.finishedAt == None && record.user == user
            && (|request.script| <= 100 ==> record.scriptBrief == "")
            && (|request.script| > 100 ==>
                  |record.scriptBrief| == 103 && record.scriptBrief[..100] == request.script[..100]
                  && record.scriptBrief[100..] == "...")
  {
    H.BriefIsPreview(C.NewRecord(reqID, request.script, request.timeout, request.agentIDs, user, now));
  }

  // ---------- naming a group does not confine a batch to it ----------

  ghost predicate Within(table: map<AgentId, AgentInfo>, ids: seq<AgentId>, group: string) {
    forall a :: a in ids ==> a in table && table[a].group == group
  }

  ghost predicate NobodyOutside(table: map<AgentId, AgentInfo>, group: string) {
    forall a :: a in table && IsOnline(table[a]) ==> table[a].group == group
  }

  /** A batch for a group stays in it exactly when somebody of it is online, or nobody outside it is. */
  lemma GroupConfinesExactly(table: map<AgentId, AgentInfo>, group: string, ids: seq<AgentId>)
    requires group != "" && Targets(table, [], group, ids)
    ensures Within(table, ids, group) <==> SomebodyOf(table, group) || NobodyOutside(table, group)
  {
    if SomebodyOf(table, group) {
      assert Selects(ids, table, (info: AgentInfo) => OnlineIn(info, group));
    } else {
      assert Selects(ids, table, IsOnline);
    }
  }

  /** An agent of no group is sent a batch meant for a group of which nobody is online. */
  lemma GroupFallsThrough(group: string, a: AgentId)
    requires group != ""
    ensures var table := map[a := S.Bare(a)];
            Targets(table, [], group, [a]) && !Within(table, [a], group)
  {
    var table := map[a := S.Bare(a)];
    assert S.Bare(a).group == "" && IsOnline(S.Bare(a));
    assert Selects([a], table, IsOnline);
    assert !SomebodyOf(table, group);
    assert a in [a] && table[a].group != group;
  }

  // ---------- the handlers and the step machine ----------

  function OrderOf(msg: Message): C.Order
    requires msg.data.RequestData?
  {
    C.Order(msg.agentID, msg.reqID, msg.data.request.script, msg.data.request.timeout)
  }

  /** The messages whose write succeeds. */
  function Written(msgs: seq<Message>, oks: seq<bool>): seq<Message>
    requires |oks| == |msgs|
    decreases |msgs|
  {
    if msgs == [] then []
    else (if oks[0] then [msgs[0]] else []) + Written(msgs[1..], oks[1..])
  }

  /** Exec requests as orders on link l. */
  function Downs(l: nat, msgs: seq<Message>): seq<C.Down>
    requires forall i :: 0 <= i < |msgs| ==> msgs[i].data.RequestData?
  {
    seq(|msgs|, i requires 0 <= i < |msgs| => C.Down(l, OrderOf(msgs[i])))
  }

  function HandlerOf(request: ExecRequest): C.Handler {
    C.Handler(request.script, request.timeout, request.agentIDs)
  }

  lemma {:induction false} WrittenArePassed(l: nat, reqID: ReqId, request: ExecRequest, whole: ExecRequest, oks: seq<bool>)
    requires |oks| == |request.agentIDs| && whole.script == request.script && whole.timeout == request.timeout
    ensures var msgs := FanOutOf(reqID, request.agentIDs, whole);
            && (forall i :: 0 <= i < |Written(msgs, oks)| ==> Written(msgs, oks)[i].data.RequestData?)
            && Downs(l, Written(msgs, oks)) == R.Passed(l, reqID, HandlerOf(request), oks)
    decreases |oks|
  {
    if oks != [] {
      var msgs := FanOutOf(reqID, request.agentIDs, whole);
      assert msgs[1..] == FanOutOf(reqID, request.agentIDs[1..], whole);
      WrittenArePassed(l, reqID, request.(agentIDs := request.agentIDs[1..]), whole, oks[1..]);
    }
  }

  /**
    The send steps of one handler put on the link, as orders, exactly the messages of the
    fan-out loop whose write succeeds, and count the others as lost.
   */
  lemma SendStepsAreFanOut(s: C.State, reqID: ReqId, request: ExecRequest, oks: seq<bool>) returns (s': C.State)
    requires reqID in s.master.handlers && s.master.handlers[reqID] == HandlerOf(request)
    requires |oks| == |request.agentIDs| && s.master.link.Some?
    ensures C.Runs(s, R.Sends(reqID, oks), s')
    ensures forall i :: 0 <= i < |Written(FanOut(reqID, request), oks)| ==> Written(FanOut(reqID, request), oks)[i].data.RequestData?
    ensures s'.net.down == s.net.down + Downs(s.master.link.value, Written(FanOut(reqID, request), oks))
    ensures s'.log.lostBefore == s.log.lostBefore + R.Dropped(reqID, request.agentIDs, oks)
    ensures s'.master == s.master.(handlers := s.master.handlers[reqID := HandlerOf(request).(rest := [])])
  {
    R.FanOutRuns(s, reqID, oks);
    s' := R.FannedOut(s, reqID, oks);
    WrittenArePassed(s.master.link.value, reqID, request, request, oks);
  }

  /** Without a link the same steps are enabled only as failures, and nothing leaves the master. */
  lemma {:induction false} AllDropped(reqID: ReqId, targets: seq<AgentId>, oks: seq<bool>)
    requires |oks| == |targets| && forall i :: 0 <= i < |oks| ==> !oks[i]
    ensures |R.Dropped(reqID, targets, oks)| == |targets|
    ensures forall i :: 0 <= i < |targets| ==> R.Dropped(reqID, targets, oks)[i] == C.Token(reqID, targets[i])
    decreases |oks|
  {
    if oks != [] {
      AllDropped(reqID, targets[1..], oks[1..]);
    }
  }

  lemma {:induction false} AllWritten(msgs: seq<Message>, oks: seq<bool>, open: bool)
    requires |oks| == |msgs| && forall i :: 0 <= i < |oks| ==> oks[i] == open
    ensures Written(msgs, oks) == if open then msgs else []
    decreases |msgs|
  {
    if msgs != [] {
      AllWritten(msgs[1..], oks[1..], open);
    }
  }

  /** What SendAll writes, on an open or a closed connection, is the case in which all writes go alike. */
  lemma SendAllIsWritten(sent: seq<Message>, reqID: ReqId, request: ExecRequest, open: bool)
    ensures M.SentIfOpen(open, sent, FanOut(reqID, request))
            == sent + Written(FanOut(reqID, request), seq(|FanOut(reqID, request)|, _ => open))
  {
    AllWritten(FanOut(reqID, request), seq(|FanOut(reqID, request)|, _ => open), open);
  }

  lemma SendStepsWithoutLink(s: C.State, reqID: ReqId, request: ExecRequest) returns (s': C.State)
    requires reqID in s.master.handlers && s.master.handlers[reqID] == HandlerOf(request) && s.master.link.None?
    ensures C.Runs(s, R.Sends(reqID, seq(|request.agentIDs|, _ => false)), s')
    ensures s'.net == s.net && |s'.log.lostBefore| == |s.log.lostBefore| + |request.agentIDs|
    ensures forall i :: 0 <= i < |request.agentIDs| ==>
              s'.log.lostBefore[|s.log.lostBefore| + i] == C.Token(reqID, request.agentIDs[i])
  {
    var oks := seq(|request.agentIDs|, _ => false);
    R.FanOutRuns(s, reqID, oks);
    s' := R.FannedOut(s, reqID, oks);
    AllDropped(reqID, request.agentIDs, oks);
  }

  // ---------- a read loop continues the runs that the other modules reason about ----------

  function EventsOf(inbox: seq<Arrival>): seq<S.Event> {
    if inbox == [] then []
    else
      var before := EventsOf(inbox[..|inbox| - 1]);
      match EventOf(inbox[|inbox| - 1])
      case Some(event) => before + [event]
      case None => before
  }

  function CallsOf(inbox: seq<Arrival>): seq<H.Op> {
    if inbox == [] then []
    else
      var before := CallsOf(inbox[..|inbox| - 1]);
      var arrival := inbox[|inbox| - 1];
      if IsAnswer(arrival.frame) then
        var msg := arrival.frame.msg;
        before + [H.Update(msg.reqID, C.ResultOf(msg.agentID, msg.data.outcome), arrival.at)]
      else before
  }

  /** The inventory that HandleGatewayWS leaves behind is the run so far and its messages' events. */
  lemma {:induction false} InboxExtendsStoreRun(events: seq<S.Event>, inbox: seq<Arrival>)
    ensures TableAfter(S.After(events), inbox) == S.After(events + EventsOf(inbox))
  {
    if inbox == [] {
      assert events + [] == events;
    } else {
      var front := inbox[..|inbox| - 1];
      InboxExtendsStoreRun(events, front);
      if EventOf(inbox[|inbox| - 1]).Some? {
        assert Front(events + EventsOf(inbox)) == events + EventsOf(front);
      }
    }
  }

  /** The history that HandleGatewayWS leaves behind is the calls so far and its answers' updates. */
  lemma {:induction false} InboxExtendsHistoryRun(ops: seq<H.Op>, maxSize: nat, inbox: seq<Arrival>)
    ensures RecordsAfter(H.Bounded(ops, maxSize), inbox) == H.Bounded(ops + CallsOf(inbox), maxSize)
  {
    if inbox == [] {
      assert ops + [] == ops;
    } else {
      var front := inbox[..|inbox| - 1];
      InboxExtendsHistoryRun(ops, maxSize, front);
      if IsAnswer(inbox[|inbox| - 1].frame) {
        assert Front(ops + CallsOf(inbox)) == ops + CallsOf(front);
      }
    }
  }

  /** Those updates are all marked done and add no record. */
  lemma {:induction false} InboxKeepsMasterOps(ops: seq<H.Op>, inbox: seq<Arrival>)
    requires H.MasterOps(ops)
    ensures H.MasterOps(ops + CallsOf(inbox)) && H.Records(ops + CallsOf(inbox)) == H.Records(ops)
  {
    if inbox == [] {
      assert ops + [] == ops;
    } else {
      var front := inbox[..|inbox| - 1];
      InboxKeepsMasterOps(ops, front);
      if IsAnswer(inbox[|inbox| - 1].frame) {
        assert Front(ops + CallsOf(inbox)) == ops + CallsOf(front);
      }
    }
  }

  /** Messages read and stamped by the reader of one agent's connection concern that agent only. */
  lemma {:induction false} StampedEventsAreOwn(agentID: AgentId, inbox: seq<Frame>, i: nat, at: int)
    requires i < |M.Stamped(agentID, inbox)|
    ensures match EventOf(Arrival(Readable(M.Stamped(agentID, inbox)[i]), at))
            case Some(event) => forall a :: a != agentID ==> S.FromOther(event, a)
            case None => true
  {
    M.StampedNamesSender(agentID, inbox);
  }
}

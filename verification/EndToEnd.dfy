/**
  What the messages of one program mean to the next: what the master sends is what agents
  answer, what the gateway routes is what the cluster's steps deliver, and what agents and
  the gateway report is what the inventory shows.
 */
module EndToEnd {
  import opened Types
  import opened Wire
  import opened MachineStore
  import opened Master
  import A = Agent
  import C = Cluster
  import CC = ClusterCorrelation
  import G = GatewayMachine
  import H = History
  import M = GatewayManager
  import R = ClusterRuns
  import S = StoreRuns

  // ---------- a fan-out is answered ----------

  /** Every message of a fan-out is for its own agent, which answers it once, with the outcome of the script. */
  lemma FanOutIsAnswered(reqID: ReqId, request: ExecRequest, k: nat, run: (string, int) -> Outcome)
    requires k < |request.agentIDs|
    ensures |FanOut(reqID, request)| == |request.agentIDs|
    ensures FanOut(reqID, request)[k].agentID == request.agentIDs[k] && FanOut(reqID, request)[k].reqID == reqID
    ensures A.Answers(request.agentIDs[k], FanOut(reqID, request)[k], run)
            == [Message("exec_response", request.agentIDs[k], reqID,
                        ResponseData(request.agentIDs[k], run(request.script, request.timeout)))]
  {
  }

  /** An agent answers exec requests and nothing else. */
  lemma OnlyRequestsAreAnswered(id: AgentId, msg: Message, run: (string, int) -> Outcome)
    ensures A.Answers(id, msg, run) != [] <==> msg.kind == "exec_request" && msg.data.RequestData?
  {
  }

  /** An order that is with its agent came from a fan-out. */
  lemma ParcelIsFanOut(maxSize: nat, steps: seq<C.Step>, s: C.State, i: nat) returns (reqID: ReqId, request: ExecRequest, k: nat)
    requires C.Runs(C.Init(maxSize), steps, s) && i < |s.net.parcels|
    ensures k < |request.agentIDs|
    ensures reqID in s.log.issued && s.log.issued[reqID] == C.Request(request.script, request.timeout, request.agentIDs)
    ensures FanOut(reqID, request)[k].data.RequestData? && OrderOf(FanOut(reqID, request)[k]) == s.net.parcels[i].order
  {
    CC.RunKeepsAllOk(C.Init(maxSize), steps, s);
    var order := s.net.parcels[i].order;
    assert CC.OrderOk(s.log.issued, order);
    reqID := order.req;
    var issued := s.log.issued[reqID];
    request := ExecRequest(issued.script, issued.timeout, issued.targets);
    k :| 0 <= k < |issued.targets| && issued.targets[k] == order.agent;
  }

  /**
    Main result: in every reachable state, for every order that is with its agent there is a
    message of the fan-out of an issued request, which the agent answers with the outcome of that
    request's script; and while the way back is open, the steps that file this answer exist.
   */
  lemma EveryParcelIsAnswered(maxSize: nat, steps: seq<C.Step>, s: C.State, i: nat,
                              run: (string, int) -> Outcome, via: G.ConnId, now: int)
      returns (reqID: ReqId, request: ExecRequest, k: nat, s': C.State)
    requires C.Runs(C.Init(maxSize), steps, s)
    requires C.Enabled(s, C.Take(i)) && R.WayBackOpen(s, via) && s.gw.conns[via].owner == R.Receiver(s, i)
    ensures k < |request.agentIDs|
    ensures reqID in s.log.issued && s.log.issued[reqID] == C.Request(request.script, request.timeout, request.agentIDs)
    ensures C.Runs(s, R.AnswerSteps(s, i, run(request.script, request.timeout), via, now), s')
    ensures s'.master.history
            == RecordsAfter(s.master.history, A.AnswerArrives(R.Receiver(s, i), FanOut(reqID, request)[k], run, now))
  {
    reqID, request, k := ParcelIsFanOut(maxSize, steps, s, i);
    s' := A.AnswerReachesRecord(s, i, FanOut(reqID, request)[k], run, via, now);
  }

  // ---------- the gateway's routing loop and the cluster's steps ----------

  predicate AllRequests(msgs: seq<Message>) {
    forall i :: 0 <= i < |msgs| ==> msgs[i].data.RequestData?
  }

  /** Exec requests as orders. */
  function OrdersOf(msgs: seq<Message>): seq<C.Order>
    requires AllRequests(msgs)
  {
    seq(|msgs|, i requires 0 <= i < |msgs| => OrderOf(msgs[i]))
  }

  function ParcelsFor(parcels: seq<C.Parcel>, a: AgentId): seq<C.Parcel> {
    if parcels == [] then []
    else ParcelsFor(Front(parcels), a) + (if Last(parcels).order.agent == a then [Last(parcels)] else [])
  }

  function AsParcels(c: G.ConnId, msgs: seq<Message>): seq<C.Parcel>
    requires AllRequests(msgs)
  {
    seq(|msgs|, i requires 0 <= i < |msgs| => C.Parcel(c, OrderOf(msgs[i])))
  }

  lemma {:induction false} AddressedCarryRequests(a: AgentId, msgs: seq<Message>)
    requires AllRequests(msgs)
    ensures AllRequests(M.AddressedTo(a, A.Readables(msgs)))
  {
    if msgs == [] {
      assert A.Readables(msgs) == [];
    } else {
      AddressedOneMore(a, msgs);
      AddressedCarryRequests(a, Front(msgs));
      assert Last(msgs).data.RequestData?;
    }
  }

  lemma ReadablesFront(msgs: seq<Message>)
    requires msgs != []
    ensures var frames := A.Readables(msgs);
            |frames| == |msgs| && frames[..|frames| - 1] == A.Readables(Front(msgs)) && frames[|frames| - 1] == Readable(Last(msgs))
  {
  }

  lemma ParcelsForAppend(parcels: seq<C.Parcel>, more: seq<C.Parcel>, a: AgentId)
    requires |more| <= 1
    ensures ParcelsFor(parcels + more, a) == ParcelsFor(parcels, a) + ParcelsFor(more, a)
  {
    if more == [] {
      assert parcels + more == parcels;
    } else {
      assert Front(parcels + more) == parcels && Front(more) == [];
    }
  }

  lemma ParcelsForOne(g: G.State, order: C.Order, a: AgentId)
    ensures ParcelsFor(R.PassedOne(g, order), a) == if order.agent == a then R.PassedOne(g, order) else []
  {
    var one := R.PassedOne(g, order);
    if one != [] {
      assert Front(one) == [];
    }
  }

  lemma AddressedOneMore(a: AgentId, msgs: seq<Message>)
    requires msgs != []
    ensures M.AddressedTo(a, A.Readables(msgs))
            == M.AddressedTo(a, A.Readables(Front(msgs))) + (if Last(msgs).agentID == a then [Last(msgs)] else [])
  {
    ReadablesFront(msgs);
  }

  lemma AsParcelsAppend(c: G.ConnId, msgs: seq<Message>, more: seq<Message>)
    requires AllRequests(msgs)
    requires AllRequests(more)
    ensures AllRequests(msgs + more)
    ensures AsParcels(c, msgs + more) == AsParcels(c, msgs) + AsParcels(c, more)
  {
  }

  /** What the loop writes to the agent, as parcels. */
  function LoopParcels(g: G.State, a: AgentId, msgs: seq<Message>): seq<C.Parcel>
    requires AllRequests(msgs)
  {
    AddressedCarryRequests(a, msgs);
    if R.Reachable(g, a) then AsParcels(g.registry[a], M.AddressedTo(a, A.Readables(msgs))) else []
  }

  lemma LoopParcelsOneMore(g: G.State, a: AgentId, msgs: seq<Message>)
    requires msgs != [] && AllRequests(msgs)
    ensures LoopParcels(g, a, msgs)
            == LoopParcels(g, a, Front(msgs)) + (if Last(msgs).agentID == a then R.PassedOne(g, OrderOf(Last(msgs))) else [])
  {
    AddressedOneMore(a, msgs);
    AddressedCarryRequests(a, Front(msgs));
    var last := if Last(msgs).agentID == a then [Last(msgs)] else [];
    if R.Reachable(g, a) {
      AsParcelsAppend(g.registry[a], M.AddressedTo(a, A.Readables(Front(msgs))), last);
    }
  }

  /** The parcels for one agent are the messages that the loop addresses to it, on its open connection. */
  lemma {:induction false} PassedOnAreAddressed(g: G.State, a: AgentId, msgs: seq<Message>)
    requires AllRequests(msgs)
    ensures ParcelsFor(R.PassedOn(g, OrdersOf(msgs)), a) == LoopParcels(g, a, msgs)
  {
    if msgs == [] {
      assert A.Readables(msgs) == [];
    } else {
      var front, last := Front(msgs), Last(msgs);
      PassedOnAreAddressed(g, a, front);
      LoopParcelsOneMore(g, a, msgs);
      assert Front(OrdersOf(msgs)) == OrdersOf(front) && Last(OrdersOf(msgs)) == OrderOf(last);
      ParcelsForAppend(R.PassedOn(g, OrdersOf(front)), R.PassedOne(g, OrderOf(last)), a);
      ParcelsForOne(g, OrderOf(last), a);
    }
  }

  /**
    Main result: when the link brings exec requests, the cluster's routing and writing steps
    exist that take them all, and what they put on an agent's connection is what the loop of
    connectToMaster writes to it: the messages addressed to the agent, in order, if it has an
    open connection, and nothing otherwise.
   */
  lemma RouteStepsAreLoop(s: C.State, link: G.LinkId, msgs: seq<Message>, a: AgentId) returns (steps: seq<C.Step>, s': C.State)
    requires AllRequests(msgs)
    requires s.gw.phase == G.Routing(link) && s.net.down == R.OnLink(link, OrdersOf(msgs))
    ensures C.Runs(s, steps, s') && s'.net.down == [] && s'.gw == s.gw && s'.net.routed == s.net.routed
    ensures s.net.parcels <= s'.net.parcels
    ensures ParcelsFor(s'.net.parcels[|s.net.parcels|..], a) == LoopParcels(s.gw, a, msgs)
  {
    var orders := OrdersOf(msgs);
    assert s.net.down == R.OnLink(link, orders) + [];
    steps := R.RouteRuns(s, link, orders, []);
    s' := R.RoutedAll(s, orders, []);
    PassedOnAreAddressed(s.gw, a, msgs);
    assert s'.net.parcels[|s.net.parcels|..] == R.PassedOn(s.gw, orders);
  }

  // ---------- what each kind of message does to the inventory ----------

  function Arrivals(msgs: seq<Message>, at: int): seq<Arrival> {
    seq(|msgs|, i requires 0 <= i < |msgs| => Arrival(Readable(msgs[i]), at))
  }

  /** The inventory once the master has read, at one time, what the gateway passes on of a message from id. */
  function InventoryAfter(table: map<AgentId, AgentInfo>, id: AgentId, sent: Message, at: int): map<AgentId, AgentInfo> {
    TableAfter(table, Arrivals(M.Stamped(id, [Readable(sent)]), at))
  }

  lemma PassedOnOnce(table: map<AgentId, AgentInfo>, id: AgentId, sent: Message, at: int)
    ensures InventoryAfter(table, id, sent, at)
            == match EventOf(Arrival(Readable(sent.(agentID := id)), at))
               case Some(event) => S.Changed(table, event)
               case None => table
  {
    var frames := [Readable(sent)];
    assert frames[..|frames| - 1] == [];
    assert M.Stamped(id, frames) == M.Stamped(id, []) + M.StampedOne(id, Readable(sent)) == [sent.(agentID := id)];
    var inbox := Arrivals([sent.(agentID := id)], at);
    assert inbox[..|inbox| - 1] == [] && TableAfter(table, []) == table;
  }

  /** All records but that of id are as before. */
  ghost predicate OthersKept(table: map<AgentId, AgentInfo>, after: map<AgentId, AgentInfo>, id: AgentId) {
    forall a :: a != id ==> Find(after, a) == Find(table, a)
  }

  /** id was heard from at this time. */
  predicate HeardAt(after: map<AgentId, AgentInfo>, id: AgentId, at: int) {
    id in after && after[id].status == "online" && after[id].lastSeen == at
  }

  /**
    Main result: once the register of an agent is read, the agent is listed as online and heard
    from, with every field that it gave; fields it left out, tags, group and metrics of a known
    machine stay.
   */
  lemma RegisterIsListed(table: map<AgentId, AgentInfo>, id: AgentId, sent: Message, at: int, f: S.Field)
    requires sent.kind == "register" && sent.data.InfoData?
    ensures var after := InventoryAfter(table, id, sent, at);
            && HeardAt(after, id, at) && OthersKept(table, after, id)
            && (id !in table || S.Given(sent.data.info, f) ==> S.Get(after[id], f) == S.Get(sent.data.info, f))
            && (id in table && !S.Given(sent.data.info, f) ==> S.Get(after[id], f) == S.Get(table[id], f))
            && (id in table ==> after[id].tags == table[id].tags && after[id].group == table[id].group
                                && after[id].metrics == table[id].metrics)
  {
    PassedOnOnce(table, id, sent, at);
    var event := S.Report(id, sent.data.info, at);
    S.FieldStep(table, event, id, f);
  }

  /** In particular the message that an agent writes when it connects. */
  lemma ConnectingIsListed(table: map<AgentId, AgentInfo>, id: AgentId, info: AgentInfo, at: int, f: S.Field)
    ensures var after := InventoryAfter(table, id, Message(REGISTER, id, "", InfoData(info)), at);
            HeardAt(after, id, at) && (S.Given(info, f) ==> S.Get(after[id], f) == S.Get(info, f))
    ensures M.HasRegister([Readable(Message(REGISTER, id, "", InfoData(info)))])
  {
    RegisterIsListed(table, id, Message(REGISTER, id, "", InfoData(info)), at, f);
    assert M.IsRegister([Readable(Message(REGISTER, id, "", InfoData(info)))][0]);
  }

  /** Metrics of a known machine are stored and show that it is alive; of an unknown one they are dropped. */
  lemma MetricsAreStored(table: map<AgentId, AgentInfo>, id: AgentId, sent: Message, at: int)
    requires sent.kind == "metrics" && sent.data.MetricsData?
    ensures var after := InventoryAfter(table, id, sent, at);
            && OthersKept(table, after, id)
            && (id in after <==> id in table)
            && (id in table ==>
                  HeardAt(after, id, at) && after[id].metrics == Some(sent.data.metrics)
                  && after[id] == table[id].(metrics := after[id].metrics, lastSeen := at, status := after[id].status))
  {
    PassedOnOnce(table, id, sent, at);
  }

  /** A heartbeat shows that a machine is alive, whether it was known or not, and changes nothing else of a known one. */
  lemma HeartbeatIsHeard(table: map<AgentId, AgentInfo>, id: AgentId, sent: Message, at: int)
    requires sent.kind == "heartbeat"
    ensures var after := InventoryAfter(table, id, sent, at);
            && HeardAt(after, id, at) && OthersKept(table, after, id)
            && (id in table ==> after[id] == table[id].(lastSeen := at, status := after[id].status))
  {
    PassedOnOnce(table, id, sent, at);
  }

  /** No other message touches the inventory. */
  lemma OthersAreNoNews(table: map<AgentId, AgentInfo>, id: AgentId, sent: Message, at: int)
    requires sent.kind !in {"register", "metrics", "heartbeat"}
    ensures InventoryAfter(table, id, sent, at) == table
  {
    PassedOnOnce(table, id, sent, at);
  }

  // ---------- a reconnect makes every connected agent known ----------

  /** Of a known machine only time and status have changed. */
  predicate OnlyRefreshed(table: map<AgentId, AgentInfo>, after: map<AgentId, AgentInfo>, id: AgentId) {
    id in table && id in after ==>
      after[id] == table[id].(lastSeen := after[id].lastSeen, status := after[id].status)
  }

  lemma BareIsBlank(id: AgentId, f: S.Field)
    ensures !S.Given(S.Bare(id), f)
  {
  }

  lemma ResyncOneMore(table: map<AgentId, AgentInfo>, id: AgentId, at: int)
    ensures var after := S.Changed(table, S.Report(id, S.Bare(id), at));
            HeardAt(after, id, at) && OthersKept(table, after, id) && OnlyRefreshed(table, after, id)
  {
    if id in table {
      forall f ensures !S.Given(S.Bare(id), f) {
        BareIsBlank(id, f);
      }
      S.BareReportOnlyRefreshes(table, id, S.Bare(id), at);
    }
  }

  /**
    Main result: once the master has read the registers of a resync, every agent they were sent
    for is listed as online and heard from; nothing else of a known machine has changed, and
    nothing of the others.
   */
  lemma {:induction false} ResyncListsEverybody(table: map<AgentId, AgentInfo>, ids: seq<AgentId>, at: int)
    ensures |M.ResyncMessages(ids)| == |ids|
    ensures forall i :: 0 <= i < |ids| ==> M.ResyncMessages(ids)[i].kind == "register" && M.ResyncMessages(ids)[i].agentID == ids[i]
    ensures var after := TableAfter(table, Arrivals(M.ResyncMessages(ids), at));
            && (forall id :: id in ids ==> HeardAt(after, id, at))
            && (forall id :: id !in ids ==> Find(after, id) == Find(table, id))
            && (forall id :: id in table ==> id in after)
            && (forall id :: OnlyRefreshed(table, after, id))
  {
    var inbox := Arrivals(M.ResyncMessages(ids), at);
    if ids == [] {
      assert inbox == [];
    } else {
      var front, id := Front(ids), Last(ids);
      ResyncListsEverybody(table, front, at);
      ResyncStep(table, ids, at);
      var before := TableAfter(table, Arrivals(M.ResyncMessages(front), at));
      ResyncOneMore(before, id, at);
      assert ids == front + [id];
      RefreshedTwice(table, before, TableAfter(table, inbox), id);
    }
  }

  lemma ResyncStep(table: map<AgentId, AgentInfo>, ids: seq<AgentId>, at: int)
    requires ids != []
    ensures TableAfter(table, Arrivals(M.ResyncMessages(ids), at))
            == S.Changed(TableAfter(table, Arrivals(M.ResyncMessages(Front(ids)), at)), S.Report(Last(ids), S.Bare(Last(ids)), at))
  {
    var inbox := Arrivals(M.ResyncMessages(ids), at);
    assert inbox[..|inbox| - 1] == Arrivals(M.ResyncMessages(Front(ids)), at);
  }

  lemma RefreshedTwice(table: map<AgentId, AgentInfo>, before: map<AgentId, AgentInfo>, after: map<AgentId, AgentInfo>, id: AgentId)
    requires forall a :: OnlyRefreshed(table, before, a)
    requires OthersKept(before, after, id) && OnlyRefreshed(before, after, id) && (id in table ==> id in before)
    ensures forall a :: OnlyRefreshed(table, after, a)
  {
    forall a ensures OnlyRefreshed(table, after, a) {
      assert OnlyRefreshed(table, before, a);
      if a != id {
        assert Find(after, a) == Find(before, a);
      }
    }
  }
}

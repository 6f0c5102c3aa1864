/**
  Batch execution end to end: master, gateway and agents as one step machine.

  Sources: internal/master/api/api.go (HandleBatchExec, HandleDashboardWS,
  HandleGatewayWS), internal/master/ws/ws.go (GatewayConn), cmd/gateway/main.go and
  internal/gateway/proxy/proxy.go (through GatewayMachine), cmd/agent/main.go.

  Channels are sequences from which any element may be taken or lost next, so every
  order of delivery and every loss is covered. Only connectToMaster links the gateway
  to the master.
 */
module Cluster {
  import opened Types
  import opened Registry
  import G = GatewayMachine
  import H = History

  /** One exec request as the master addresses it to one agent. */
  datatype Order = Order(agent: AgentId, req: ReqId, script: string, timeout: int)

  datatype Down = Down(link: G.LinkId, order: Order)
  datatype Parcel = Parcel(conn: G.ConnId, order: Order)
  /** A script running in the agent process named agent, asked for over conn. */
  datatype Job = Job(agent: AgentId, conn: G.ConnId, order: Order)
  datatype Reply = Reply(conn: G.ConnId, agent: AgentId, req: ReqId, outcome: Outcome)
  datatype Report = Report(link: G.LinkId, agent: AgentId, req: ReqId, outcome: Outcome)

  /** The local variables of one exec handler while it fans out. */
  datatype Handler = Handler(script: string, timeout: int, rest: seq<AgentId>)

  /** Where the HandleGatewayWS goroutine of one link is. */
  datatype ReaderPhase = Serving | Leaving | Gone

  datatype Request = Request(script: string, timeout: int, targets: seq<AgentId>)
  datatype Run = Run(agent: AgentId, conn: G.ConnId, req: ReqId, script: string, timeout: int, outcome: Outcome)
  datatype Token = Token(req: ReqId, agent: AgentId)

  datatype MasterState = MasterState(
    link: Option<G.LinkId>,                 // GatewayConn.conn
    readers: map<G.LinkId, ReaderPhase>,
    history: seq<H.ExecRecord>,
    handlers: map<ReqId, Handler>)

  /** What is in flight. */
  datatype Net = Net(
    down: seq<Down>,        // master to gateway
    routed: seq<Parcel>,    // looked up by the gateway, not written yet
    parcels: seq<Parcel>,   // gateway to agent
    jobs: seq<Job>,         // running
    replies: seq<Reply>,    // agent to gateway
    held: seq<Reply>,       // read and stamped by a reader, not forwarded yet
    reports: seq<Report>)   // gateway to master

  /** What has happened so far; no step depends on it except through fresh request ids. */
  datatype Log = Log(
    issued: map<ReqId, Request>,
    calls: seq<H.Op>,       // calls made on the history
    started: seq<Token>,
    runs: set<Run>,
    settled: seq<Token>,    // answers the master has handled, whether or not the record was still there
    lostBefore: seq<Token>, // lost before the script started
    lostAfter: seq<Token>)  // lost after it started

  datatype State = State(maxSize: nat, gw: G.State, master: MasterState, net: Net, log: Log)

  function Init(maxSize: nat): State {
    State(maxSize, G.Init, MasterState(None, map[], [], map[]), Net([], [], [], [], [], [], []), Log(map[], [], [], {}, [], [], []))
  }

  datatype Step =
    | Gateway(g: G.Step)
    | Submit(req: ReqId, script: string, timeout: int, targets: seq<AgentId>, user: string, now: int)
    | Send(req: ReqId, ok: bool)
    | MasterAttach(link: G.LinkId)
    | MasterFail(link: G.LinkId)
    | MasterDetach(link: G.LinkId)
    | RouteOrder(i: nat)
    | Deliver(i: nat, ok: bool)
    | Take(i: nat)
    | Finish(i: nat, outcome: Outcome, via: Option<G.ConnId>)
    | Hear(i: nat)
    | Forward(i: nat, ok: bool)
    | File(i: nat, now: int)
    | LoseDown(i: nat)
    | LoseParcel(i: nat)
    | LoseJob(i: nat)
    | LoseReply(i: nat)
    | LoseReport(i: nat)

  /** Gateway steps that move no exec message. */
  predicate Silent(g: G.Step) {
    !g.ReadAnswer? && !g.ForwardAnswer? && !g.Route? && !g.Delivered?
  }

  ghost predicate Enabled(s: State, step: Step) {
    match step
    case Gateway(g) => Silent(g) && G.Enabled(s.gw, g)
    case Submit(req, _, _, _, _, _) => req !in s.log.issued && req !in s.master.handlers
    case Send(req, ok) => req in s.master.handlers && s.master.handlers[req].rest != [] && (ok ==> s.master.link.Some?)
    case MasterAttach(link) => link < s.gw.links && link !in s.master.readers
    case MasterFail(link) => link in s.master.readers && s.master.readers[link] == Serving
    case MasterDetach(link) => link in s.master.readers && s.master.readers[link] == Leaving
    case RouteOrder(i) => i < |s.net.down| && s.gw.phase.Routing? && s.net.down[i].link == s.gw.phase.link
    case Deliver(i, ok) =>
      && i < |s.net.routed| && s.gw.phase.Delivering? && s.net.routed[i].conn == s.gw.phase.target
      && (ok ==> s.net.routed[i].conn < |s.gw.conns| && s.gw.conns[s.net.routed[i].conn].open)
    case Take(i) => i < |s.net.parcels| && s.net.parcels[i].conn < |s.gw.conns|
    case Finish(i, _, via) =>
      && i < |s.net.jobs|
      && (via.Some? ==> via.value < |s.gw.conns| && s.gw.conns[via.value].owner == s.net.jobs[i].agent)
    case Hear(i) => i < |s.net.replies| && G.Enabled(s.gw, G.ReadAnswer(s.net.replies[i].conn))
    case Forward(i, ok) =>
      i < |s.net.held| && G.Enabled(s.gw, G.ForwardAnswer(s.net.held[i].conn)) && (ok ==> s.gw.masterConn.Some?)
    case File(i, _) => i < |s.net.reports| && s.net.reports[i].link in s.master.readers && s.master.readers[s.net.reports[i].link] == Serving
    case LoseDown(i) => i < |s.net.down|
    case LoseParcel(i) => i < |s.net.parcels|
    case LoseJob(i) => i < |s.net.jobs|
    case LoseReply(i) => i < |s.net.replies|
    case LoseReport(i) => i < |s.net.reports|
  }

  function OrderToken(order: Order): Token { Token(order.req, order.agent) }
  function DownToken(d: Down): Token { OrderToken(d.order) }
  function ParcelToken(p: Parcel): Token { OrderToken(p.order) }
  function JobToken(j: Job): Token { Token(j.order.req, j.agent) }
  function ReplyToken(r: Reply): Token { Token(r.req, r.agent) }
  function ReportToken(r: Report): Token { Token(r.req, r.agent) }

  function NewRecord(req: ReqId, script: string, timeout: int, targets: seq<AgentId>, user: string, now: int): H.ExecRecord {
    H.ExecRecord(req, script, "", timeout, targets, map[], "running", now, None, user)
  }

  /** What HandleGatewayWS files for an exec response: it always marks it done. */
  function ResultOf(agent: AgentId, outcome: Outcome): H.ExecResult {
    H.ExecResult(agent, outcome.exitCode, outcome.output, outcome.error, true)
  }

  function LoseBefore(log: Log, t: Token): Log {
    log.(lostBefore := log.lostBefore + [t])
  }

  function LoseAfter(log: Log, t: Token): Log {
    log.(lostAfter := log.lostAfter + [t])
  }

  /** History.Add of a new record, and the handler that is about to fan it out. */
  ghost function Submitted(s: State, req: ReqId, script: string, timeout: int, targets: seq<AgentId>, user: string, now: int): State {
    var record := NewRecord(req, script, timeout, targets, user, now);
    s.(master := s.master.(history := H.Added(s.master.history, s.maxSize, record),
                           handlers := s.master.handlers[req := Handler(script, timeout, targets)]),
       log := s.log.(calls := s.log.calls + [H.Add(record)],
                     issued := s.log.issued[req := Request(script, timeout, targets)]))
  }

  /** One round of the fan-out loop; GatewayConn.Send drops the message when there is no link. */
  ghost function SentNext(s: State, req: ReqId, ok: bool): State
    requires Enabled(s, Send(req, ok))
  {
    var h := s.master.handlers[req];
    var order := Order(h.rest[0], req, h.script, h.timeout);
    var sent := s.(master := s.master.(handlers := s.master.handlers[req := h.(rest := h.rest[1..])]));
    if ok then sent.(net := s.net.(down := s.net.down + [Down(s.master.link.value, order)]))
    else sent.(log := LoseBefore(s.log, OrderToken(order)))
  }

  /** connectToMaster reads an order and looks its agent up. */
  ghost function RoutedNext(s: State, i: nat): State
    requires Enabled(s, RouteOrder(i))
  {
    var order := s.net.down[i].order;
    var read := s.net.(down := Without(s.net.down, i));
    if order.agent == "" then s.(net := read, log := LoseBefore(s.log, OrderToken(order)))
    else
      var looked := s.(gw := G.Apply(s.gw, G.Route(order.agent)));
      match Lookup(s.gw.registry, order.agent)
      case Some(c) => looked.(net := read.(routed := s.net.routed + [Parcel(c, order)]))
      case None => looked.(net := read, log := LoseBefore(s.log, OrderToken(order)))
  }

  /** The write to the connection that was looked up; it fails when that one is closed. */
  ghost function Written(s: State, i: nat, ok: bool): State
    requires Enabled(s, Deliver(i, ok))
  {
    var p := s.net.routed[i];
    var gone := s.net.(routed := Without(s.net.routed, i));
    var served := s.(gw := G.Apply(s.gw, G.Delivered));
    if ok then served.(net := gone.(parcels := s.net.parcels + [p]))
    else served.(net := gone, log := LoseBefore(s.log, ParcelToken(p)))
  }

  /** The agent process at the other end reads the request and starts the script. */
  ghost function Taken(s: State, i: nat): State
    requires Enabled(s, Take(i))
  {
    var p := s.net.parcels[i];
    var job := Job(s.gw.conns[p.conn].owner, p.conn, p.order);
    s.(net := s.net.(parcels := Without(s.net.parcels, i), jobs := s.net.jobs + [job]),
       log := s.log.(started := s.log.started + [JobToken(job)]))
  }

  /** The script ends and the response goes out on whatever connection the process has by then. */
  ghost function Finished(s: State, i: nat, outcome: Outcome, via: Option<G.ConnId>): State
    requires Enabled(s, Finish(i, outcome, via))
  {
    var j := s.net.jobs[i];
    var run := Run(j.agent, j.conn, j.order.req, j.order.script, j.order.timeout, outcome);
    var done := s.net.(jobs := Without(s.net.jobs, i));
    var ran := s.log.(runs := s.log.runs + {run});
    match via
    case Some(c) => s.(net := done.(replies := s.net.replies + [Reply(c, j.agent, j.order.req, outcome)]), log := ran)
    case None => s.(net := done, log := LoseAfter(ran, JobToken(j)))
  }

  /** A gateway reader reads a response and stamps it with the id of its connection. */
  ghost function Heard(s: State, i: nat): State
    requires Enabled(s, Hear(i))
  {
    var r := s.net.replies[i];
    s.(gw := G.Apply(s.gw, G.ReadAnswer(r.conn)),
       net := s.net.(replies := Without(s.net.replies, i),
                     held := s.net.held + [r.(agent := s.gw.conns[r.conn].owner)]))
  }

  /** SendToMaster of a stamped response. */
  ghost function Forwarded(s: State, i: nat, ok: bool): State
    requires Enabled(s, Forward(i, ok))
  {
    var r := s.net.held[i];
    var gone := s.net.(held := Without(s.net.held, i));
    var passed := s.(gw := G.Apply(s.gw, G.ForwardAnswer(r.conn)));
    if ok then passed.(net := gone.(reports := s.net.reports + [Report(s.gw.masterConn.value, r.agent, r.req, r.outcome)]))
    else passed.(net := gone, log := LoseAfter(s.log, ReplyToken(r)))
  }

  /** HandleGatewayWS files a response under the id the gateway stamped. */
  ghost function Filed(s: State, i: nat, now: int): State
    requires Enabled(s, File(i, now))
  {
    var r := s.net.reports[i];
    s.(net := s.net.(reports := Without(s.net.reports, i)),
       master := s.master.(history := H.Updated(s.master.history, r.req, ResultOf(r.agent, r.outcome), now)),
       log := s.log.(calls := s.log.calls + [H.Update(r.req, ResultOf(r.agent, r.outcome), now)],
                     settled := s.log.settled + [ReportToken(r)]))
  }

  // Losses: a broken connection, or for a job the end of the agent process.

  function LostDown(s: State, i: nat): State
    requires i < |s.net.down|
  {
    s.(net := s.net.(down := Without(s.net.down, i)), log := LoseBefore(s.log, DownToken(s.net.down[i])))
  }

  function LostParcel(s: State, i: nat): State
    requires i < |s.net.parcels|
  {
    s.(net := s.net.(parcels := Without(s.net.parcels, i)), log := LoseBefore(s.log, ParcelToken(s.net.parcels[i])))
  }

  function LostJob(s: State, i: nat): State
    requires i < |s.net.jobs|
  {
    s.(net := s.net.(jobs := Without(s.net.jobs, i)), log := LoseAfter(s.log, JobToken(s.net.jobs[i])))
  }

  function LostReply(s: State, i: nat): State
    requires i < |s.net.replies|
  {
    s.(net := s.net.(replies := Without(s.net.replies, i)), log := LoseAfter(s.log, ReplyToken(s.net.replies[i])))
  }

  function LostReport(s: State, i: nat): State
    requires i < |s.net.reports|
  {
    s.(net := s.net.(reports := Without(s.net.reports, i)), log := LoseAfter(s.log, ReportToken(s.net.reports[i])))
  }

  ghost function Apply(s: State, step: Step): State
    requires Enabled(s, step)
  {
    match step
    case Gateway(g) => s.(gw := G.Apply(s.gw, g))
    case Submit(req, script, timeout, targets, user, now) => Submitted(s, req, script, timeout, targets, user, now)
    case Send(req, ok) => SentNext(s, req, ok)
    case MasterAttach(link) => s.(master := s.master.(link := Some(link), readers := s.master.readers[link := Serving]))
    case MasterFail(link) => s.(master := s.master.(readers := s.master.readers[link := Leaving]))
    case MasterDetach(link) => s.(master := s.master.(link := None, readers := s.master.readers[link := Gone]))
    case RouteOrder(i) => RoutedNext(s, i)
    case Deliver(i, ok) => Written(s, i, ok)
    case Take(i) => Taken(s, i)
    case Finish(i, outcome, via) => Finished(s, i, outcome, via)
    case Hear(i) => Heard(s, i)
    case Forward(i, ok) => Forwarded(s, i, ok)
    case File(i, now) => Filed(s, i, now)
    case LoseDown(i) => LostDown(s, i)
    case LoseParcel(i) => LostParcel(s, i)
    case LoseJob(i) => LostJob(s, i)
    case LoseReply(i) => LostReply(s, i)
    case LoseReport(i) => LostReport(s, i)
  }

  ghost predicate Runs(s: State, steps: seq<Step>, s': State)
    decreases |steps|
  {
    if steps == [] then s' == s
    else Enabled(s, steps[0]) && Runs(Apply(s, steps[0]), steps[1..], s')
  }
}

/**
  Nothing is duplicated and nothing disappears: every listed occurrence of an agent in
  a request is at any time in exactly one place, and runs at most once.
 */
module ClusterConservation {
  import opened Types
  import opened Cluster
  import G = GatewayMachine

  /** How often token t occurs among the tokens of the elements of s. */
  ghost function Count<T>(s: seq<T>, token: T -> Token, t: Token): nat {
    if s == [] then 0 else (if token(s[0]) == t then 1 else 0) + Count(s[1..], token, t)
  }

  ghost function One(t: Token, u: Token): nat {
    if t == u then 1 else 0
  }

  lemma {:induction false} CountAppend<T>(s: seq<T>, x: T, token: T -> Token, t: Token)
    ensures Count(s + [x], token, t) == Count(s, token, t) + One(token(x), t)
  {
    if s == [] {
      assert [x][1..] == [];
    } else {
      assert (s + [x])[1..] == s[1..] + [x];
      CountAppend(s[1..], x, token, t);
    }
  }

  lemma {:induction false} CountWithout<T>(s: seq<T>, i: nat, token: T -> Token, t: Token)
    requires i < |s|
    ensures Count(s, token, t) == Count(Without(s, i), token, t) + One(token(s[i]), t)
  {
    if i == 0 {
      assert Without(s, 0) == s[1..];
    } else {
      assert Without(s, i)[1..] == Without(s[1..], i - 1);
      CountWithout(s[1..], i - 1, token, t);
    }
  }

  function Same(t: Token): Token { t }

  /** Occurrences of t.agent in the agent list of request t.req. */
  ghost function Listed(s: State, t: Token): nat {
    if t.req in s.log.issued then multiset(s.log.issued[t.req].targets)[t.agent] else 0
  }

  ghost function Unsent(s: State, t: Token): nat {
    if t.req in s.master.handlers then multiset(s.master.handlers[t.req].rest)[t.agent] else 0
  }

  ghost function Started(s: State, t: Token): nat {
    Count(s.log.started, Same, t)
  }

  /** Still to be started: with the handler, in flight to the agent, or lost on that way. */
  ghost function NotStarted(s: State, t: Token): nat {
    Unsent(s, t) + Count(s.net.down, DownToken, t) + Count(s.net.routed, ParcelToken, t)
    + Count(s.net.parcels, ParcelToken, t) + Count(s.log.lostBefore, Same, t)
  }

  /** Started: running, answer in flight, answer handled by the master, or lost on that way. */
  ghost function Underway(s: State, t: Token): nat {
    Count(s.net.jobs, JobToken, t) + Count(s.net.replies, ReplyToken, t) + Count(s.net.held, ReplyToken, t)
    + Count(s.net.reports, ReportToken, t) + Count(s.log.settled, Same, t) + Count(s.log.lostAfter, Same, t)
  }

  ghost predicate Balanced(s: State, t: Token) {
    NotStarted(s, t) + Started(s, t) == Listed(s, t) && Started(s, t) == Underway(s, t)
  }

  /** A handler exists exactly for an issued request. */
  ghost predicate HandlersIssued(s: State) {
    s.master.handlers.Keys == s.log.issued.Keys
  }

  ghost predicate RoutedHome(s: State) {
    forall i :: 0 <= i < |s.net.routed| ==> OwnedBy(s, s.net.routed[i].conn, s.net.routed[i].order.agent)
  }

  ghost predicate ParcelsHome(s: State) {
    forall i :: 0 <= i < |s.net.parcels| ==> OwnedBy(s, s.net.parcels[i].conn, s.net.parcels[i].order.agent)
  }

  ghost predicate JobsHome(s: State) {
    forall i :: 0 <= i < |s.net.jobs| ==> OwnedBy(s, s.net.jobs[i].conn, s.net.jobs[i].agent) && s.net.jobs[i].agent == s.net.jobs[i].order.agent
  }

  ghost predicate RepliesHome(s: State) {
    forall i :: 0 <= i < |s.net.replies| ==> OwnedBy(s, s.net.replies[i].conn, s.net.replies[i].agent)
  }

  ghost predicate HeldHome(s: State) {
    forall i :: 0 <= i < |s.net.held| ==> OwnedBy(s, s.net.held[i].conn, s.net.held[i].agent)
  }

  /** A message is only ever on a connection of the agent it is for or from. */
  ghost predicate OnOwnConnections(s: State) {
    RoutedHome(s) && ParcelsHome(s) && JobsHome(s) && RepliesHome(s) && HeldHome(s)
  }

  ghost predicate OwnedBy(s: State, c: G.ConnId, a: AgentId) {
    c < |s.gw.conns| && s.gw.conns[c].owner == a
  }

  // ---------- the gateway inside the cluster takes gateway steps only ----------

  /** The gateway step that a cluster step contains, if any. */
  ghost function GatewayPart(s: State, step: Step): Option<G.Step>
    requires Enabled(s, step)
  {
    match step
    case Gateway(g) => Some(g)
    case RouteOrder(i) => if s.net.down[i].order.agent == "" then None else Some(G.Route(s.net.down[i].order.agent))
    case Deliver(_, _) => Some(G.Delivered)
    case Hear(i) => Some(G.ReadAnswer(s.net.replies[i].conn))
    case Forward(i, _) => Some(G.ForwardAnswer(s.net.held[i].conn))
    case _ => None
  }

  lemma StepIsGatewayStep(s: State, step: Step)
    requires Enabled(s, step)
    ensures match GatewayPart(s, step)
            case Some(g) => G.Enabled(s.gw, g) && Apply(s, step).gw == G.Apply(s.gw, g)
            case None => Apply(s, step).gw == s.gw
  {
  }

  /** A run of the cluster, restricted to its gateway, is a run of the gateway on its own. */
  lemma {:induction false} ProjectsToGateway(s: State, steps: seq<Step>, s': State) returns (gs: seq<G.Step>)
    requires Runs(s, steps, s')
    ensures G.Runs(s.gw, gs, s'.gw)
    decreases |steps|
  {
    if steps == [] {
      gs := [];
    } else {
      StepIsGatewayStep(s, steps[0]);
      var rest := ProjectsToGateway(Apply(s, steps[0]), steps[1..], s');
      match GatewayPart(s, steps[0])
      case Some(g) =>
        gs := [g] + rest;
        assert gs[1..] == rest;
      case None =>
        gs := rest;
    }
  }

  lemma OwnersStay(s: State, step: Step)
    requires Enabled(s, step)
    ensures forall c, a :: OwnedBy(s, c, a) ==> OwnedBy(Apply(s, step), c, a)
  {
    StepIsGatewayStep(s, step);
  }

  lemma StepKeepsRoutedHome(s: State, step: Step)
    requires Enabled(s, step) && G.RegistrySound(s.gw) && RoutedHome(s)
    ensures RoutedHome(Apply(s, step))
  {
    OwnersStay(s, step);
  }

  lemma StepKeepsParcelsHome(s: State, step: Step)
    requires Enabled(s, step) && RoutedHome(s) && ParcelsHome(s)
    ensures ParcelsHome(Apply(s, step))
  {
    OwnersStay(s, step);
  }

  lemma StepKeepsJobsHome(s: State, step: Step)
    requires Enabled(s, step) && ParcelsHome(s) && JobsHome(s)
    ensures JobsHome(Apply(s, step))
  {
    OwnersStay(s, step);
    if step.Take? {
      assert OwnedBy(s, s.net.parcels[step.i].conn, s.net.parcels[step.i].order.agent);
    } else if step.Finish? || step.LoseJob? {
    } else {
      assert Apply(s, step).net.jobs == s.net.jobs;
    }
  }

  lemma StepKeepsRepliesHome(s: State, step: Step)
    requires Enabled(s, step) && RepliesHome(s)
    ensures RepliesHome(Apply(s, step))
  {
    OwnersStay(s, step);
  }

  lemma StepKeepsHeldHome(s: State, step: Step)
    requires Enabled(s, step) && RepliesHome(s) && HeldHome(s)
    ensures HeldHome(Apply(s, step))
  {
    OwnersStay(s, step);
    if step.Hear? || step.Forward? {
    } else {
      assert Apply(s, step).net.held == s.net.held;
    }
  }

  lemma StepKeepsOwnConnections(s: State, step: Step)
    requires Enabled(s, step) && G.RegistrySound(s.gw) && OnOwnConnections(s)
    ensures OnOwnConnections(Apply(s, step))
  {
    StepKeepsRoutedHome(s, step);
    StepKeepsParcelsHome(s, step);
    StepKeepsJobsHome(s, step);
    StepKeepsRepliesHome(s, step);
    StepKeepsHeldHome(s, step);
  }

  // ---------- conservation ----------

  lemma Popped(rest: seq<AgentId>, a: AgentId)
    requires rest != []
    ensures multiset(rest)[a] == multiset(rest[1..])[a] + (if rest[0] == a then 1 else 0)
  {
    assert rest == [rest[0]] + rest[1..];
  }

  lemma SendBalanced(s: State, req: ReqId, ok: bool, t: Token)
    requires Enabled(s, Send(req, ok)) && HandlersIssued(s) && Balanced(s, t)
    ensures Balanced(SentNext(s, req, ok), t)
  {
    var h := s.master.handlers[req];
    var order := Order(h.rest[0], req, h.script, h.timeout);
    Popped(h.rest, t.agent);
    if ok {
      CountAppend(s.net.down, Down(s.master.link.value, order), DownToken, t);
    } else {
      CountAppend(s.log.lostBefore, OrderToken(order), Same, t);
    }
  }

  lemma RouteBalanced(s: State, i: nat, t: Token)
    requires Enabled(s, RouteOrder(i)) && Balanced(s, t)
    ensures Balanced(RoutedNext(s, i), t)
  {
    var order := s.net.down[i].order;
    CountWithout(s.net.down, i, DownToken, t);
    if order.agent != "" && order.agent in s.gw.registry {
      CountAppend(s.net.routed, Parcel(s.gw.registry[order.agent], order), ParcelToken, t);
    } else {
      CountAppend(s.log.lostBefore, OrderToken(order), Same, t);
    }
  }

  lemma DeliverBalanced(s: State, i: nat, ok: bool, t: Token)
    requires Enabled(s, Deliver(i, ok)) && Balanced(s, t)
    ensures Balanced(Written(s, i, ok), t)
  {
    CountWithout(s.net.routed, i, ParcelToken, t);
    if ok {
      CountAppend(s.net.parcels, s.net.routed[i], ParcelToken, t);
    } else {
      CountAppend(s.log.lostBefore, ParcelToken(s.net.routed[i]), Same, t);
    }
  }

  lemma TakeBalanced(s: State, i: nat, t: Token)
    requires Enabled(s, Take(i)) && ParcelsHome(s) && Balanced(s, t)
    ensures Balanced(Taken(s, i), t)
  {
    assert OwnedBy(s, s.net.parcels[i].conn, s.net.parcels[i].order.agent);
    var job := Job(s.gw.conns[s.net.parcels[i].conn].owner, s.net.parcels[i].conn, s.net.parcels[i].order);
    CountWithout(s.net.parcels, i, ParcelToken, t);
    CountAppend(s.net.jobs, job, JobToken, t);
    CountAppend(s.log.started, JobToken(job), Same, t);
  }

  lemma FinishBalanced(s: State, i: nat, outcome: Outcome, via: Option<G.ConnId>, t: Token)
    requires Enabled(s, Finish(i, outcome, via)) && Balanced(s, t)
    ensures Balanced(Finished(s, i, outcome, via), t)
  {
    var j := s.net.jobs[i];
    CountWithout(s.net.jobs, i, JobToken, t);
    match via
    case Some(c) => CountAppend(s.net.replies, Reply(c, j.agent, j.order.req, outcome), ReplyToken, t);
    case None => CountAppend(s.log.lostAfter, JobToken(j), Same, t);
  }

  lemma HearBalanced(s: State, i: nat, t: Token)
    requires Enabled(s, Hear(i)) && RepliesHome(s) && Balanced(s, t)
    ensures Balanced(Heard(s, i), t)
  {
    assert OwnedBy(s, s.net.replies[i].conn, s.net.replies[i].agent);
    CountWithout(s.net.replies, i, ReplyToken, t);
    CountAppend(s.net.held, s.net.replies[i], ReplyToken, t);
  }

  lemma ForwardBalanced(s: State, i: nat, ok: bool, t: Token)
    requires Enabled(s, Forward(i, ok)) && Balanced(s, t)
    ensures Balanced(Forwarded(s, i, ok), t)
  {
    var r := s.net.held[i];
    CountWithout(s.net.held, i, ReplyToken, t);
    if ok {
      CountAppend(s.net.reports, Report(s.gw.masterConn.value, r.agent, r.req, r.outcome), ReportToken, t);
    } else {
      CountAppend(s.log.lostAfter, ReplyToken(r), Same, t);
    }
  }

  lemma FileBalanced(s: State, i: nat, now: int, t: Token)
    requires Enabled(s, File(i, now)) && Balanced(s, t)
    ensures Balanced(Filed(s, i, now), t)
  {
    CountWithout(s.net.reports, i, ReportToken, t);
    CountAppend(s.log.settled, ReportToken(s.net.reports[i]), Same, t);
  }

  lemma LostDownBalanced(s: State, i: nat, t: Token)
    requires i < |s.net.down| && Balanced(s, t)
    ensures Balanced(LostDown(s, i), t)
  {
    CountWithout(s.net.down, i, DownToken, t);
    CountAppend(s.log.lostBefore, DownToken(s.net.down[i]), Same, t);
  }

  lemma LostParcelBalanced(s: State, i: nat, t: Token)
    requires i < |s.net.parcels| && Balanced(s, t)
    ensures Balanced(LostParcel(s, i), t)
  {
    CountWithout(s.net.parcels, i, ParcelToken, t);
    CountAppend(s.log.lostBefore, ParcelToken(s.net.parcels[i]), Same, t);
  }

  lemma LostJobBalanced(s: State, i: nat, t: Token)
    requires i < |s.net.jobs| && Balanced(s, t)
    ensures Balanced(LostJob(s, i), t)
  {
    CountWithout(s.net.jobs, i, JobToken, t);
    CountAppend(s.log.lostAfter, JobToken(s.net.jobs[i]), Same, t);
  }

  lemma LostReplyBalanced(s: State, i: nat, t: Token)
    requires i < |s.net.replies| && Balanced(s, t)
    ensures Balanced(LostReply(s, i), t)
  {
    CountWithout(s.net.replies, i, ReplyToken, t);
    CountAppend(s.log.lostAfter, ReplyToken(s.net.replies[i]), Same, t);
  }

  lemma LostReportBalanced(s: State, i: nat, t: Token)
    requires i < |s.net.reports| && Balanced(s, t)
    ensures Balanced(LostReport(s, i), t)
  {
    CountWithout(s.net.reports, i, ReportToken, t);
    CountAppend(s.log.lostAfter, ReportToken(s.net.reports[i]), Same, t);
  }

  /** Steps on the way from the master to the agent. */
  predicate Outbound(step: Step) {
    step.Send? || step.RouteOrder? || step.Deliver? || step.Take? || step.LoseDown? || step.LoseParcel?
  }

  /** Steps on the way from the agent to the history. */
  predicate Inbound(step: Step) {
    step.Finish? || step.Hear? || step.Forward? || step.File? || step.LoseJob? || step.LoseReply? || step.LoseReport?
  }

  lemma OutboundBalanced(s: State, step: Step, t: Token)
    requires Enabled(s, step) && Outbound(step) && OnOwnConnections(s) && HandlersIssued(s) && Balanced(s, t)
    ensures Balanced(Apply(s, step), t)
  {
    match step
    case Send(req, ok) => SendBalanced(s, req, ok, t);
    case RouteOrder(i) => RouteBalanced(s, i, t);
    case Deliver(i, ok) => DeliverBalanced(s, i, ok, t);
    case Take(i) => TakeBalanced(s, i, t);
    case LoseDown(i) => LostDownBalanced(s, i, t);
    case LoseParcel(i) => LostParcelBalanced(s, i, t);
  }

  lemma InboundBalanced(s: State, step: Step, t: Token)
    requires Enabled(s, step) && Inbound(step) && OnOwnConnections(s) && Balanced(s, t)
    ensures Balanced(Apply(s, step), t)
  {
    match step
    case Finish(i, outcome, via) => FinishBalanced(s, i, outcome, via, t);
    case Hear(i) => HearBalanced(s, i, t);
    case Forward(i, ok) => ForwardBalanced(s, i, ok, t);
    case File(i, now) => FileBalanced(s, i, now, t);
    case LoseJob(i) => LostJobBalanced(s, i, t);
    case LoseReply(i) => LostReplyBalanced(s, i, t);
    case LoseReport(i) => LostReportBalanced(s, i, t);
  }

  lemma StepKeepsBalanced(s: State, step: Step, t: Token)
    requires Enabled(s, step) && OnOwnConnections(s) && HandlersIssued(s) && Balanced(s, t)
    ensures Balanced(Apply(s, step), t)
  {
    if Outbound(step) {
      OutboundBalanced(s, step, t);
    } else if Inbound(step) {
      InboundBalanced(s, step, t);
    }
  }

  ghost predicate Inv(s: State) {
    && G.Inv(s.gw)
    && HandlersIssued(s)
    && OnOwnConnections(s)
    && (forall t :: Balanced(s, t))
  }

  lemma StepKeepsInv(s: State, step: Step)
    requires Enabled(s, step) && Inv(s)
    ensures Inv(Apply(s, step))
  {
    StepIsGatewayStep(s, step);
    if GatewayPart(s, step).Some? {
      G.StepKeepsInv(s.gw, GatewayPart(s, step).value);
    }
    StepKeepsOwnConnections(s, step);
    forall t ensures Balanced(Apply(s, step), t) {
      StepKeepsBalanced(s, step, t);
    }
  }

  lemma {:induction false} RunKeepsInv(s: State, steps: seq<Step>, s': State)
    requires Inv(s) && Runs(s, steps, s')
    ensures Inv(s')
    decreases |steps|
  {
    if steps != [] {
      StepKeepsInv(s, steps[0]);
      RunKeepsInv(Apply(s, steps[0]), steps[1..], s');
    }
  }

  /** Main result: in every reachable state each listed occurrence is in exactly one place. */
  lemma Conservation(maxSize: nat, steps: seq<Step>, s: State, t: Token)
    requires Runs(Init(maxSize), steps, s)
    ensures NotStarted(s, t) + Underway(s, t) == Listed(s, t)
    ensures Started(s, t) == Underway(s, t)
  {
    RunKeepsInv(Init(maxSize), steps, s);
    assert Balanced(s, t);
  }

  /** So an agent runs a request at most as often as it is listed, and never when it is not. */
  lemma RunsAtMostOncePerListing(maxSize: nat, steps: seq<Step>, s: State, t: Token)
    requires Runs(Init(maxSize), steps, s)
    ensures Started(s, t) <= Listed(s, t)
    ensures (t.req in s.log.issued ==> t.agent !in s.log.issued[t.req].targets) ==> Started(s, t) == 0
  {
    Conservation(maxSize, steps, s, t);
  }
}

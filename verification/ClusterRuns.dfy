/** Runs of the cluster that one goroutine, or one message, goes through from end to end. */
module ClusterRuns {
  import opened Types
  import opened Cluster
  import G = GatewayMachine
  import H = History

  lemma {:induction false} RunsJoin(s: State, xs: seq<Step>, mid: State, ys: seq<Step>, s': State)
    requires Runs(s, xs, mid) && Runs(mid, ys, s')
    ensures Runs(s, xs + ys, s')
    decreases |xs|
  {
    if xs == [] {
      assert xs + ys == ys;
    } else {
      assert (xs + ys)[1..] == xs[1..] + ys;
      RunsJoin(Apply(s, xs[0]), xs[1..], mid, ys, s');
    }
  }

  lemma OneStep(s: State, step: Step)
    requires Enabled(s, step)
    ensures Runs(s, [step], Apply(s, step))
  {
    assert [step][1..] == [];
  }

  // ---------- one exec handler fans out ----------

  /** One send for each listed agent; oks says which writes succeed. */
  function Sends(req: ReqId, oks: seq<bool>): seq<Step> {
    seq(|oks|, i requires 0 <= i < |oks| => Send(req, oks[i]))
  }

  /** The orders that reach the link. */
  function Passed(link: G.LinkId, req: ReqId, h: Handler, oks: seq<bool>): seq<Down>
    requires |oks| == |h.rest|
    decreases |oks|
  {
    if oks == [] then []
    else
      (if oks[0] then [Down(link, Order(h.rest[0], req, h.script, h.timeout))] else [])
      + Passed(link, req, h.(rest := h.rest[1..]), oks[1..])
  }

  /** The occurrences whose order does not. */
  function Dropped(req: ReqId, targets: seq<AgentId>, oks: seq<bool>): seq<Token>
    requires |oks| == |targets|
    decreases |oks|
  {
    if oks == [] then []
    else (if oks[0] then [] else [Token(req, targets[0])]) + Dropped(req, targets[1..], oks[1..])
  }

  /** The state once the handler of req is through. */
  ghost function FannedOut(s: State, req: ReqId, oks: seq<bool>): State
    requires req in s.master.handlers && |oks| == |s.master.handlers[req].rest|
  {
    var h := s.master.handlers[req];
    var passed := match s.master.link case Some(l) => Passed(l, req, h, oks) case None => [];
    s.(master := s.master.(handlers := s.master.handlers[req := h.(rest := [])]),
       net := s.net.(down := s.net.down + passed),
       log := s.log.(lostBefore := s.log.lostBefore + Dropped(req, h.rest, oks)))
  }

  /** Whichever writes succeed, the sends of one handler come to this; without a link none can. */
  lemma {:induction false} FanOutRuns(s: State, req: ReqId, oks: seq<bool>)
    requires req in s.master.handlers && |oks| == |s.master.handlers[req].rest|
    requires s.master.link.None? ==> forall i :: 0 <= i < |oks| ==> !oks[i]
    ensures Runs(s, Sends(req, oks), FannedOut(s, req, oks))
    decreases |oks|
  {
    var h := s.master.handlers[req];
    if oks != [] {
      var next := Apply(s, Send(req, oks[0]));
      FanOutRuns(next, req, oks[1..]);
      assert Sends(req, oks)[1..] == Sends(req, oks[1..]);
      SendThenRest(s, req, oks);
    }
  }

  lemma Regroup<T>(a: seq<T>, b: seq<T>, c: seq<T>)
    ensures (a + b) + c == a + (b + c)
    ensures a + ([] + c) == a + c
  {
  }

  lemma SendThenRest(s: State, req: ReqId, oks: seq<bool>)
    requires req in s.master.handlers && |oks| == |s.master.handlers[req].rest| && oks != []
    requires Enabled(s, Send(req, oks[0]))
    ensures FannedOut(SentNext(s, req, oks[0]), req, oks[1..]) == FannedOut(s, req, oks)
  {
    var h := s.master.handlers[req];
    var less := h.(rest := h.rest[1..]);
    var done := h.(rest := []);
    var dropped := Dropped(req, less.rest, oks[1..]);
    assert s.master.handlers[req := less][req := done] == s.master.handlers[req := done];
    Regroup(s.log.lostBefore, [Token(req, h.rest[0])], dropped);
    if s.master.link.Some? {
      var passed := Passed(s.master.link.value, req, less, oks[1..]);
      Regroup(s.net.down, [Down(s.master.link.value, Order(h.rest[0], req, h.script, h.timeout))], passed);
    }
  }

  // ---------- connectToMaster routes what the link brings ----------

  function OnLink(link: G.LinkId, orders: seq<Order>): seq<Down> {
    seq(|orders|, i requires 0 <= i < |orders| => Down(link, orders[i]))
  }

  /** The gateway has an open connection of the agent. */
  predicate Reachable(g: G.State, a: AgentId) {
    a != "" && a in g.registry && g.registry[a] < |g.conns| && g.conns[g.registry[a]].open
  }

  function PassedOne(g: G.State, order: Order): seq<Parcel> {
    if Reachable(g, order.agent) then [Parcel(g.registry[order.agent], order)] else []
  }

  function LostOne(g: G.State, order: Order): seq<Token> {
    if Reachable(g, order.agent) then [] else [OrderToken(order)]
  }

  function PassedOn(g: G.State, orders: seq<Order>): seq<Parcel> {
    if orders == [] then [] else PassedOn(g, Front(orders)) + PassedOne(g, Last(orders))
  }

  function NotPassedOn(g: G.State, orders: seq<Order>): seq<Token> {
    if orders == [] then [] else NotPassedOn(g, Front(orders)) + LostOne(g, Last(orders))
  }

  /** The state once the orders are routed and only rest is left on its way to the gateway. */
  ghost function RoutedAll(s: State, orders: seq<Order>, rest: seq<Down>): State {
    s.(net := s.net.(down := rest, parcels := s.net.parcels + PassedOn(s.gw, orders)),
       log := s.log.(lostBefore := s.log.lostBefore + NotPassedOn(s.gw, orders)))
  }

  ghost function RoutedOne(s: State, order: Order, rest: seq<Down>): State {
    s.(net := s.net.(down := rest, parcels := s.net.parcels + PassedOne(s.gw, order)),
       log := s.log.(lostBefore := s.log.lostBefore + LostOne(s.gw, order)))
  }

  lemma FirstAway<T>(x: T, rest: seq<T>)
    ensures Without([x] + rest, 0) == rest
  {
  }

  /** The connection has been looked up, and the write comes next. */
  ghost function LookedUp(s: State, link: G.LinkId, order: Order, rest: seq<Down>): State
    requires order.agent in s.gw.registry
  {
    var c := s.gw.registry[order.agent];
    s.(gw := s.gw.(phase := G.Delivering(link, c)),
       net := s.net.(down := rest, routed := s.net.routed + [Parcel(c, order)]))
  }

  lemma LookUpRuns(s: State, link: G.LinkId, order: Order, rest: seq<Down>)
    requires s.gw.phase == G.Routing(link) && s.net.down == [Down(link, order)] + rest
    requires order.agent != "" && order.agent in s.gw.registry
    ensures Runs(s, [RouteOrder(0)], LookedUp(s, link, order, rest))
  {
    FirstAway(Down(link, order), rest);
    OneStep(s, RouteOrder(0));
  }

  lemma WriteRuns(s: State, link: G.LinkId, order: Order, rest: seq<Down>)
    requires s.gw.phase == G.Routing(link) && order.agent != "" && order.agent in s.gw.registry
    ensures Runs(LookedUp(s, link, order, rest), [Deliver(|s.net.routed|, Reachable(s.gw, order.agent))], RoutedOne(s, order, rest))
  {
    var mid := LookedUp(s, link, order, rest);
    WithoutLast(s.net.routed, Parcel(s.gw.registry[order.agent], order));
    OneStep(mid, Deliver(|s.net.routed|, Reachable(s.gw, order.agent)));
    assert mid.gw.(phase := s.gw.phase) == s.gw;
  }

  /** An order whose agent is registered is looked up and then written, or lost with its connection. */
  lemma RegisteredRuns(s: State, link: G.LinkId, order: Order, rest: seq<Down>) returns (steps: seq<Step>)
    requires s.gw.phase == G.Routing(link) && s.net.down == [Down(link, order)] + rest
    requires order.agent != "" && order.agent in s.gw.registry
    ensures Runs(s, steps, RoutedOne(s, order, rest))
  {
    var deliver := Deliver(|s.net.routed|, Reachable(s.gw, order.agent));
    LookUpRuns(s, link, order, rest);
    WriteRuns(s, link, order, rest);
    RunsJoin(s, [RouteOrder(0)], LookedUp(s, link, order, rest), [deliver], RoutedOne(s, order, rest));
    steps := [RouteOrder(0)] + [deliver];
  }

  lemma RouteOneRuns(s: State, link: G.LinkId, order: Order, rest: seq<Down>) returns (steps: seq<Step>)
    requires s.gw.phase == G.Routing(link) && s.net.down == [Down(link, order)] + rest
    ensures Runs(s, steps, RoutedOne(s, order, rest))
  {
    if order.agent != "" && order.agent in s.gw.registry {
      steps := RegisteredRuns(s, link, order, rest);
    } else {
      FirstAway(Down(link, order), rest);
      OneStep(s, RouteOrder(0));
      steps := [RouteOrder(0)];
      assert Apply(s, RouteOrder(0)) == RoutedOne(s, order, rest);
    }
  }

  lemma RoutedBoth(s: State, orders: seq<Order>, between: seq<Down>, rest: seq<Down>)
    requires orders != []
    ensures RoutedOne(RoutedAll(s, Front(orders), between), Last(orders), rest) == RoutedAll(s, orders, rest)
  {
    Regroup(s.net.parcels, PassedOn(s.gw, Front(orders)), PassedOne(s.gw, Last(orders)));
    Regroup(s.log.lostBefore, NotPassedOn(s.gw, Front(orders)), LostOne(s.gw, Last(orders)));
  }

  /** Undisturbed, the loop of connectToMaster brings all orders to the connections then registered. */
  lemma {:induction false} RouteRuns(s: State, link: G.LinkId, orders: seq<Order>, rest: seq<Down>) returns (steps: seq<Step>)
    requires s.gw.phase == G.Routing(link) && s.net.down == OnLink(link, orders) + rest
    ensures Runs(s, steps, RoutedAll(s, orders, rest))
    decreases |orders|
  {
    if orders == [] {
      assert OnLink(link, orders) + rest == rest;
      steps := [];
    } else {
      var between := [Down(link, Last(orders))] + rest;
      assert OnLink(link, orders) == OnLink(link, Front(orders)) + [Down(link, Last(orders))];
      assert s.net.down == OnLink(link, Front(orders)) + between;
      steps := RouteRuns(s, link, Front(orders), between);
      var mid := RoutedAll(s, Front(orders), between);
      var more := RouteOneRuns(mid, link, Last(orders), rest);
      RoutedBoth(s, orders, between, rest);
      RunsJoin(s, steps, mid, more, RoutedAll(s, orders, rest));
      steps := steps + more;
    }
  }

  // ---------- one order is answered ----------

  /** Steps from the order in the agent's hands to its answer on file. */
  function AnswerSteps(s: State, i: nat, outcome: Outcome, via: G.ConnId, now: int): seq<Step> {
    [Take(i), Finish(|s.net.jobs|, outcome, Some(via))]
    + [Hear(|s.net.replies|), Forward(|s.net.held|, true), File(|s.net.reports|, now)]
  }

  /** The agent at the other end of the parcel's connection. */
  function Receiver(s: State, i: nat): AgentId
    requires i < |s.net.parcels| && s.net.parcels[i].conn < |s.gw.conns|
  {
    s.gw.conns[s.net.parcels[i].conn].owner
  }

  /** The script has run and its response is on its way. */
  ghost function Replied(s: State, i: nat, outcome: Outcome, via: G.ConnId): State
    requires Enabled(s, Take(i))
  {
    var p, a := s.net.parcels[i], Receiver(s, i);
    s.(net := s.net.(parcels := Without(s.net.parcels, i),
                     replies := s.net.replies + [Reply(via, a, p.order.req, outcome)]),
       log := s.log.(started := s.log.started + [Token(p.order.req, a)],
                     runs := s.log.runs + {Run(a, p.conn, p.order.req, p.order.script, p.order.timeout, outcome)}))
  }

  lemma WithoutLast<T>(s: seq<T>, x: T)
    ensures Without(s + [x], |s|) == s
  {
  }

  lemma ReplyRuns(s: State, i: nat, outcome: Outcome, via: G.ConnId)
    requires Enabled(s, Take(i)) && via < |s.gw.conns| && s.gw.conns[via].owner == Receiver(s, i)
    ensures Runs(s, [Take(i), Finish(|s.net.jobs|, outcome, Some(via))], Replied(s, i, outcome, via))
  {
    var s1 := Taken(s, i);
    var finish := Finish(|s.net.jobs|, outcome, Some(via));
    OneStep(s, Take(i));
    OneStep(s1, finish);
    WithoutLast(s.net.jobs, s1.net.jobs[|s.net.jobs|]);
    assert Apply(s1, finish) == Replied(s, i, outcome, via);
    RunsJoin(s, [Take(i)], s1, [finish], Apply(s1, finish));
    assert [Take(i)] + [finish] == [Take(i), finish];
  }

  /** A response on an agent's connection, read, stamped, forwarded and filed. */
  ghost function FiledFrom(s: State, r: Reply, rest: seq<Reply>, now: int): State
    requires r.conn < |s.gw.conns|
  {
    var a := s.gw.conns[r.conn].owner;
    s.(net := s.net.(replies := rest),
       master := s.master.(history := H.Updated(s.master.history, r.req, ResultOf(a, r.outcome), now)),
       log := s.log.(calls := s.log.calls + [H.Update(r.req, ResultOf(a, r.outcome), now)],
                     settled := s.log.settled + [Token(r.req, a)]))
  }

  /** The gateway's reader of connection c waits for a message and the master reads the gateway's link. */
  ghost predicate WayBackOpen(s: State, c: G.ConnId) {
    && G.At(s.gw, c, G.Reading)
    && s.gw.masterConn.Some?
    && s.gw.masterConn.value in s.master.readers
    && s.master.readers[s.gw.masterConn.value] == Serving
  }

  lemma GatewayReadsOn(g: G.State, c: G.ConnId)
    requires G.At(g, c, G.Reading)
    ensures G.Enabled(g, G.ReadAnswer(c)) && G.Enabled(G.Apply(g, G.ReadAnswer(c)), G.ForwardAnswer(c))
    ensures G.Apply(G.Apply(g, G.ReadAnswer(c)), G.ForwardAnswer(c)) == g
    ensures G.Apply(g, G.ReadAnswer(c)).masterConn == g.masterConn
  {
  }

  /** The response has been read, stamped and forwarded. */
  ghost function ForwardedFrom(s: State, r: Reply, rest: seq<Reply>): State
    requires WayBackOpen(s, r.conn)
  {
    var report := Report(s.gw.masterConn.value, s.gw.conns[r.conn].owner, r.req, r.outcome);
    s.(net := s.net.(replies := rest, reports := s.net.reports + [report]))
  }

  lemma ForwardRuns(s: State, r: Reply, rest: seq<Reply>)
    requires s.net.replies == rest + [r] && WayBackOpen(s, r.conn)
    ensures Runs(s, [Hear(|rest|), Forward(|s.net.held|, true)], ForwardedFrom(s, r, rest))
  {
    var h, f := Hear(|rest|), Forward(|s.net.held|, true);
    GatewayReadsOn(s.gw, r.conn);
    WithoutLast(rest, r);
    OneStep(s, h);
    var s1 := Apply(s, h);
    WithoutLast(s.net.held, s1.net.held[|s.net.held|]);
    OneStep(s1, f);
    RunsJoin(s, [h], s1, [f], Apply(s1, f));
    assert [h] + [f] == [h, f];
  }

  lemma FileRuns(s: State, r: Reply, rest: seq<Reply>, now: int)
    requires s.net.replies == rest + [r] && WayBackOpen(s, r.conn)
    ensures Runs(s, [Hear(|rest|), Forward(|s.net.held|, true), File(|s.net.reports|, now)], FiledFrom(s, r, rest, now))
  {
    var h, f, file := Hear(|rest|), Forward(|s.net.held|, true), File(|s.net.reports|, now);
    var mid := ForwardedFrom(s, r, rest);
    ForwardRuns(s, r, rest);
    WithoutLast(s.net.reports, mid.net.reports[|s.net.reports|]);
    OneStep(mid, file);
    RunsJoin(s, [h, f], mid, [file], Apply(mid, file));
    assert [h, f] + [file] == [h, f, file];
  }

  /** From the agent's hands to the history, with nothing else disturbed. */
  lemma AnswerRuns(s: State, i: nat, outcome: Outcome, via: G.ConnId, now: int) returns (s': State)
    requires Enabled(s, Take(i)) && WayBackOpen(s, via) && s.gw.conns[via].owner == Receiver(s, i)
    ensures Runs(s, AnswerSteps(s, i, outcome, via, now), s')
    ensures s' == FiledFrom(Replied(s, i, outcome, via), Reply(via, Receiver(s, i), s.net.parcels[i].order.req, outcome), s.net.replies, now)
    ensures s'.net == s.net.(parcels := Without(s.net.parcels, i)) && s'.gw == s.gw
  {
    var mid := Replied(s, i, outcome, via);
    var r := Reply(via, Receiver(s, i), s.net.parcels[i].order.req, outcome);
    ReplyRuns(s, i, outcome, via);
    FileRuns(mid, r, s.net.replies, now);
    s' := FiledFrom(mid, r, s.net.replies, now);
    RunsJoin(s, [Take(i), Finish(|s.net.jobs|, outcome, Some(via))], mid,
             [Hear(|s.net.replies|), Forward(|s.net.held|, true), File(|s.net.reports|, now)], s');
  }
}

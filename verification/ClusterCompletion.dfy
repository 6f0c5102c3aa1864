/**
  When "completed" can be trusted to mean that every listed agent answered: exactly for
  requests whose list names no two different agents.
 */
module ClusterCompletion {
  import opened Types
  import opened Cluster
  import opened ClusterConservation
  import opened ClusterCorrelation
  import R = ClusterRuns
  import G = GatewayMachine
  import H = History

  ghost predicate AnsweredByAll(record: H.ExecRecord) {
    forall a :: a in record.agentIDs ==> a in record.results
  }

  /** In every reachable state a completed record of a request to targets has a result of each of them. */
  ghost predicate CompletedMeansAll(maxSize: nat, targets: seq<AgentId>) {
    forall steps, s, k :: Runs(Init(maxSize), steps, s) && 0 <= k < |s.master.history|
      && s.master.history[k].agentIDs == targets && s.master.history[k].status == "completed"
      ==> AnsweredByAll(s.master.history[k])
  }

  predicate AllAlike(targets: seq<AgentId>) {
    forall i, j :: 0 <= i < j < |targets| ==> targets[i] == targets[j]
  }

  lemma AlikeIsEnough(maxSize: nat, steps: seq<Step>, s: State, k: nat)
    requires Runs(Init(maxSize), steps, s) && k < |s.master.history|
    requires s.master.history[k].status == "completed" && AllAlike(s.master.history[k].agentIDs)
    ensures AnsweredByAll(s.master.history[k])
  {
    var record := s.master.history[k];
    CompletedMeansAnswered(maxSize, steps, s, k);
    var a :| a in record.results;
    Correlation(maxSize, steps, s, k, a);
  }

  // ---------- a run in which one agent answers and another one's order is lost ----------

  ghost predicate Reached(maxSize: nat, s: State) {
    exists steps :: Runs(Init(maxSize), steps, s)
  }

  lemma ReachedThen(maxSize: nat, s: State, steps: seq<Step>, s': State)
    requires Reached(maxSize, s) && Runs(s, steps, s')
    ensures Reached(maxSize, s')
  {
    var before :| Runs(Init(maxSize), before, s);
    R.RunsJoin(Init(maxSize), before, s, steps, s');
  }

  lemma ReachedNext(maxSize: nat, s: State, step: Step)
    requires Reached(maxSize, s) && Enabled(s, step)
    ensures Reached(maxSize, Apply(s, step))
  {
    R.OneStep(s, step);
    ReachedThen(maxSize, s, [step], Apply(s, step));
  }

  /** The gateway with one connected agent, once it is linked to a master. */
  function Serving1(a: AgentId): G.State {
    G.State(map[a := 0], [G.Conn(a, G.Reading, true, false)], Some(0), G.Routing(0), 1, {a})
  }

  lemma AgentConnects(maxSize: nat, a: AgentId)
    requires a != ""
    ensures Reached(maxSize, Init(maxSize).(gw := G.Init.(registry := map[a := 0], conns := [G.Conn(a, G.Reading, true, false)])))
  {
    var s0 := Init(maxSize);
    assert Runs(s0, [], s0);
    ReachedNext(maxSize, s0, Gateway(G.Accept(a)));
    var s1 := s0.(gw := G.Init.(conns := [G.Conn(a, G.Accepting, true, false)]));
    assert Apply(s0, Gateway(G.Accept(a))) == s1;
    ReachedNext(maxSize, s1, Gateway(G.AcceptRegister(0)));
    assert Apply(s1, Gateway(G.AcceptRegister(0))).gw
        == G.Init.(registry := map[a := 0], conns := [G.Conn(a, G.Reading, true, false)]);
  }

  lemma LinkIsDialed(maxSize: nat, a: AgentId, s: State)
    requires s == Init(maxSize).(gw := Serving1(a).(phase := G.Linked(0), handed := {}))
    requires a != ""
    ensures Reached(maxSize, s)
  {
    var s0 := Init(maxSize).(gw := G.Init.(registry := map[a := 0], conns := [G.Conn(a, G.Reading, true, false)]));
    AgentConnects(maxSize, a);
    ReachedNext(maxSize, s0, Gateway(G.Dial));
    var s1 := s0.(gw := s0.gw.(phase := G.Dialed(0), links := 1));
    assert Apply(s0, Gateway(G.Dial)) == s1;
    ReachedNext(maxSize, s1, Gateway(G.SetMaster));
    assert Apply(s1, Gateway(G.SetMaster)) == s;
  }

  /** What the resync of a gateway with one agent does to it. */
  lemma ResyncOfOne(a: AgentId)
    ensures var g := Serving1(a).(phase := G.Linked(0), handed := {});
            var g1 := g.(phase := G.Resyncing(0, [a]));
            var g2 := Serving1(a).(phase := G.Resyncing(0, []));
            && G.Enabled(g, G.Snapshot([a])) && G.Apply(g, G.Snapshot([a])) == g1
            && G.Enabled(g1, G.ResyncSend) && G.Apply(g1, G.ResyncSend) == g2
            && G.Enabled(g2, G.ResyncDone) && G.Apply(g2, G.ResyncDone) == Serving1(a)
  {
    assert [a][1..] == [] && {} + {a} == {a};
  }

  lemma LinkIsServed(maxSize: nat, a: AgentId)
    requires a != ""
    ensures Reached(maxSize, Init(maxSize).(gw := Serving1(a)))
  {
    var s := Init(maxSize).(gw := Serving1(a).(phase := G.Linked(0), handed := {}));
    LinkIsDialed(maxSize, a, s);
    ResyncOfOne(a);
    ReachedNext(maxSize, s, Gateway(G.Snapshot([a])));
    var s1 := Apply(s, Gateway(G.Snapshot([a])));
    ReachedNext(maxSize, s1, Gateway(G.ResyncSend));
    var s2 := Apply(s1, Gateway(G.ResyncSend));
    ReachedNext(maxSize, s2, Gateway(G.ResyncDone));
  }

  /** The state in which the handler of the one request is about to fan out. */
  ghost function Asked(maxSize: nat, a: AgentId, record: H.ExecRecord): State {
    var s := Init(maxSize);
    s.(gw := Serving1(a),
       master := MasterState(Some(0), map[0 := Serving], [H.WithBrief(record)],
                             map[record.id := Handler(record.script, record.timeout, record.agentIDs)]),
       log := s.log.(calls := [H.Add(record)], issued := map[record.id := Request(record.script, record.timeout, record.agentIDs)]))
  }

  lemma RequestIsMade(maxSize: nat, a: AgentId, record: H.ExecRecord)
    requires maxSize >= 1 && a != ""
    requires record == NewRecord(record.id, record.script, record.timeout, record.agentIDs, record.user, record.startedAt)
    ensures Reached(maxSize, Asked(maxSize, a, record))
  {
    var s := Init(maxSize).(gw := Serving1(a));
    LinkIsServed(maxSize, a);
    ReachedNext(maxSize, s, MasterAttach(0));
    var s1 := s.(master := MasterState(Some(0), map[0 := Serving], [], map[]));
    assert Apply(s, MasterAttach(0)) == s1;
    var submit := Submit(record.id, record.script, record.timeout, record.agentIDs, record.user, record.startedAt);
    ReachedNext(maxSize, s1, submit);
    assert Apply(s1, submit) == Asked(maxSize, a, record);
  }

  /** Of n writes only the i-th succeeds. */
  function OnlyAt(n: nat, i: int): (oks: seq<bool>)
    ensures |oks| == n
  {
    seq(n, j => j == i)
  }

  lemma {:induction false} OnePasses(link: G.LinkId, req: ReqId, h: Handler, i: int)
    requires i < |h.rest|
    ensures R.Passed(link, req, h, OnlyAt(|h.rest|, i))
            == if i < 0 then [] else [Down(link, Order(h.rest[i], req, h.script, h.timeout))]
    decreases |h.rest|
  {
    if h.rest != [] {
      var less := h.(rest := h.rest[1..]);
      assert OnlyAt(|h.rest|, i)[1..] == OnlyAt(|less.rest|, i - 1);
      if i < 1 {
        OnePasses(link, req, less, -1);
        assert OnlyAt(|less.rest|, i - 1) == OnlyAt(|less.rest|, -1);
      } else {
        OnePasses(link, req, less, i - 1);
      }
    }
  }

  /** An order for the connected agent goes through the gateway. */
  lemma OrderIsDelivered(s: State, order: Order) returns (s': State)
    requires order.agent != "" && s.gw == Serving1(order.agent)
    requires s.net == Net([Down(0, order)], [], [], [], [], [], [])
    ensures Runs(s, [RouteOrder(0)] + [Deliver(0, true)], s')
    ensures s'.gw == s.gw && s'.master == s.master
    ensures s'.net == Net([], [], [Parcel(0, order)], [], [], [], [])
  {
    R.OneStep(s, RouteOrder(0));
    var mid := Apply(s, RouteOrder(0));
    assert mid.gw == s.gw.(phase := G.Delivering(0, 0));
    assert mid.net == Net([], [Parcel(0, order)], [], [], [], [], []);
    R.OneStep(mid, Deliver(0, true));
    s' := Apply(mid, Deliver(0, true));
    R.RunsJoin(s, [RouteOrder(0)], mid, [Deliver(0, true)], s');
  }

  /** The order to agent a arrives, whatever happened to those for the others. */
  lemma OneOrderArrives(maxSize: nat, a: AgentId, record: H.ExecRecord, i: nat) returns (s: State)
    requires Reached(maxSize, Asked(maxSize, a, record)) && a != "" && i < |record.agentIDs| && record.agentIDs[i] == a
    ensures Reached(maxSize, s)
    ensures s.gw == Serving1(a)
    ensures s.net == Net([], [], [Parcel(0, Order(a, record.id, record.script, record.timeout))], [], [], [], [])
    ensures s.master.link == Some(0) && s.master.readers == map[0 := Serving] && s.master.history == [H.WithBrief(record)]
  {
    var s0 := Asked(maxSize, a, record);
    var order := Order(a, record.id, record.script, record.timeout);
    var oks := OnlyAt(|record.agentIDs|, i);
    R.FanOutRuns(s0, record.id, oks);
    OnePasses(0, record.id, s0.master.handlers[record.id], i);
    var s1 := R.FannedOut(s0, record.id, oks);
    ReachedThen(maxSize, s0, R.Sends(record.id, oks), s1);
    assert s1.net.down == [] + [Down(0, order)] == [Down(0, order)];
    s := OrderIsDelivered(s1, order);
    ReachedThen(maxSize, s1, [RouteOrder(0)] + [Deliver(0, true)], s);
  }

  lemma OneAnswerCompletes(maxSize: nat, a: AgentId, record: H.ExecRecord, i: nat, outcome: Outcome, now: int) returns (s: State)
    requires maxSize >= 1 && a != "" && i < |record.agentIDs| && record.agentIDs[i] == a
    requires record == NewRecord(record.id, record.script, record.timeout, record.agentIDs, record.user, record.startedAt)
    ensures Reached(maxSize, s)
    ensures s.master.history == [H.WithBrief(record).(results := map[a := ResultOf(a, outcome)], status := "completed", finishedAt := Some(now))]
  {
    RequestIsMade(maxSize, a, record);
    var s0 := OneOrderArrives(maxSize, a, record, i);
    s := R.AnswerRuns(s0, 0, outcome, 0, now);
    ReachedThen(maxSize, s0, R.AnswerSteps(s0, 0, outcome, 0, now), s);
  }

  /** For a list with two different agents: whichever is not answered for, the record is completed by the other. */
  lemma UnlikeIsNot(maxSize: nat, targets: seq<AgentId>, i: nat, j: nat)
    requires maxSize >= 1 && i < |targets| && j < |targets| && targets[i] != targets[j] && targets[i] != ""
    ensures !CompletedMeansAll(maxSize, targets)
  {
    var record := NewRecord("", "date", 0, targets, "", 0);
    var s := OneAnswerCompletes(maxSize, targets[i], record, i, Outcome(0, "", ""), 0);
    var steps :| Runs(Init(maxSize), steps, s);
    var filed := s.master.history[0];
    assert filed.agentIDs == targets && filed.status == "completed";
    assert targets[j] in filed.agentIDs && targets[j] !in filed.results;
    assert !AnsweredByAll(filed);
  }

  /**
    Main result: completed records show an answer of every listed agent in all reachable
    states exactly when the list names no two different agents.
   */
  lemma CompletedMeansAllExactly(maxSize: nat, targets: seq<AgentId>)
    requires maxSize >= 1
    ensures CompletedMeansAll(maxSize, targets) <==> AllAlike(targets)
  {
    if AllAlike(targets) {
      forall steps, s, k | Runs(Init(maxSize), steps, s) && 0 <= k < |s.master.history|
          && s.master.history[k].agentIDs == targets && s.master.history[k].status == "completed"
        ensures AnsweredByAll(s.master.history[k])
      {
        AlikeIsEnough(maxSize, steps, s, k);
      }
    } else {
      var i, j :| 0 <= i < j < |targets| && targets[i] != targets[j];
      if targets[i] != "" {
        UnlikeIsNot(maxSize, targets, i, j);
      } else {
        UnlikeIsNot(maxSize, targets, j, i);
      }
    }
  }
}

/**
  Every result that the history shows for a request and an agent was produced by that
  agent running that request's own script, and the history shows all that was settled.
 */
module ClusterCorrelation {
  import opened Types
  import opened Cluster
  import opened ClusterConservation
  import G = GatewayMachine
  import H = History

  // ---------- orders carry their own request's script to a listed agent ----------

  ghost predicate OrderOk(issued: map<ReqId, Request>, o: Order) {
    && o.req in issued
    && o.script == issued[o.req].script
    && o.timeout == issued[o.req].timeout
    && o.agent in issued[o.req].targets
  }

  ghost predicate HandlersOk(s: State) {
    forall r :: r in s.master.handlers ==>
      forall a :: a in s.master.handlers[r].rest ==> OrderOk(s.log.issued, Order(a, r, s.master.handlers[r].script, s.master.handlers[r].timeout))
  }

  ghost predicate DownOk(s: State) {
    forall i :: 0 <= i < |s.net.down| ==> OrderOk(s.log.issued, s.net.down[i].order)
  }

  ghost predicate RoutedOk(s: State) {
    forall i :: 0 <= i < |s.net.routed| ==> OrderOk(s.log.issued, s.net.routed[i].order)
  }

  ghost predicate ParcelsOk(s: State) {
    forall i :: 0 <= i < |s.net.parcels| ==> OrderOk(s.log.issued, s.net.parcels[i].order)
  }

  ghost predicate JobsOk(s: State) {
    forall i :: 0 <= i < |s.net.jobs| ==> OrderOk(s.log.issued, s.net.jobs[i].order)
  }

  ghost predicate OrdersOk(s: State) {
    HandlersOk(s) && DownOk(s) && RoutedOk(s) && ParcelsOk(s) && JobsOk(s)
  }

  lemma IssuedStay(s: State, step: Step)
    requires Enabled(s, step)
    ensures forall o :: OrderOk(s.log.issued, o) ==> OrderOk(Apply(s, step).log.issued, o)
  {
    if step.Submit? {
      assert forall o :: OrderOk(s.log.issued, o) ==> o.req != step.req;
    } else {
      assert Apply(s, step).log.issued == s.log.issued;
    }
  }

  lemma StepKeepsHandlersOk(s: State, step: Step)
    requires Enabled(s, step) && HandlersOk(s)
    ensures HandlersOk(Apply(s, step))
  {
    IssuedStay(s, step);
  }

  lemma StepKeepsDownOk(s: State, step: Step)
    requires Enabled(s, step) && HandlersOk(s) && DownOk(s)
    ensures DownOk(Apply(s, step))
  {
    IssuedStay(s, step);
    if step.Send? {
      assert s.master.handlers[step.req].rest[0] in s.master.handlers[step.req].rest;
    }
  }

  lemma StepKeepsRoutedOk(s: State, step: Step)
    requires Enabled(s, step) && DownOk(s) && RoutedOk(s)
    ensures RoutedOk(Apply(s, step))
  {
    IssuedStay(s, step);
  }

  lemma StepKeepsParcelsOk(s: State, step: Step)
    requires Enabled(s, step) && RoutedOk(s) && ParcelsOk(s)
    ensures ParcelsOk(Apply(s, step))
  {
    IssuedStay(s, step);
  }

  lemma StepKeepsJobsOk(s: State, step: Step)
    requires Enabled(s, step) && ParcelsOk(s) && JobsOk(s)
    ensures JobsOk(Apply(s, step))
  {
    IssuedStay(s, step);
  }

  lemma StepKeepsOrdersOk(s: State, step: Step)
    requires Enabled(s, step) && OrdersOk(s)
    ensures OrdersOk(Apply(s, step))
  {
    StepKeepsHandlersOk(s, step);
    StepKeepsDownOk(s, step);
    StepKeepsRoutedOk(s, step);
    StepKeepsParcelsOk(s, step);
    StepKeepsJobsOk(s, step);
  }

  // ---------- answers come from runs ----------

  ghost predicate RunOk(s: State, run: Run) {
    OrderOk(s.log.issued, Order(run.agent, run.req, run.script, run.timeout)) && OwnedBy(s, run.conn, run.agent)
  }

  ghost predicate RunsOk(s: State) {
    forall run :: run in s.log.runs ==> RunOk(s, run)
  }

  ghost predicate Produced(runs: set<Run>, agent: AgentId, req: ReqId, outcome: Outcome) {
    exists run :: run in runs && run.agent == agent && run.req == req && run.outcome == outcome
  }

  ghost predicate RepliesOk(s: State) {
    forall i :: 0 <= i < |s.net.replies| ==> Produced(s.log.runs, s.net.replies[i].agent, s.net.replies[i].req, s.net.replies[i].outcome)
  }

  ghost predicate HeldOk(s: State) {
    forall i :: 0 <= i < |s.net.held| ==> Produced(s.log.runs, s.net.held[i].agent, s.net.held[i].req, s.net.held[i].outcome)
  }

  ghost predicate ReportsOk(s: State) {
    forall i :: 0 <= i < |s.net.reports| ==> Produced(s.log.runs, s.net.reports[i].agent, s.net.reports[i].req, s.net.reports[i].outcome)
  }

  lemma RunsStay(s: State, step: Step)
    requires Enabled(s, step)
    ensures s.log.runs <= Apply(s, step).log.runs
    ensures forall a, r, o :: Produced(s.log.runs, a, r, o) ==> Produced(Apply(s, step).log.runs, a, r, o)
  {
  }

  lemma StepKeepsRunsOk(s: State, step: Step)
    requires Enabled(s, step) && JobsOk(s) && JobsHome(s) && RunsOk(s)
    ensures RunsOk(Apply(s, step))
  {
    IssuedStay(s, step);
    OwnersStay(s, step);
    var s' := Apply(s, step);
    forall run | run in s.log.runs ensures RunOk(s', run) {
      assert RunOk(s, run);
    }
    if step.Finish? {
      assert OwnedBy(s, s.net.jobs[step.i].conn, s.net.jobs[step.i].agent);
      assert s'.log.issued == s.log.issued;
    }
  }

  lemma FinishKeepsRepliesOk(s: State, i: nat, outcome: Outcome, via: Option<G.ConnId>)
    requires Enabled(s, Finish(i, outcome, via)) && RepliesOk(s)
    ensures RepliesOk(Finished(s, i, outcome, via))
  {
    var j := s.net.jobs[i];
    var s' := Finished(s, i, outcome, via);
    var run := Run(j.agent, j.conn, j.order.req, j.order.script, j.order.timeout, outcome);
    assert run in s'.log.runs && s.log.runs <= s'.log.runs;
  }

  lemma StepKeepsRepliesOk(s: State, step: Step)
    requires Enabled(s, step) && RepliesOk(s)
    ensures RepliesOk(Apply(s, step))
  {
    if step.Finish? {
      FinishKeepsRepliesOk(s, step.i, step.outcome, step.via);
    } else {
      assert Apply(s, step).log.runs == s.log.runs;
    }
  }

  lemma HearKeepsHeldOk(s: State, i: nat)
    requires Enabled(s, Hear(i)) && RepliesOk(s) && RepliesHome(s) && HeldOk(s)
    ensures HeldOk(Heard(s, i))
  {
    assert OwnedBy(s, s.net.replies[i].conn, s.net.replies[i].agent);
  }

  lemma StepKeepsHeldOk(s: State, step: Step)
    requires Enabled(s, step) && RepliesOk(s) && RepliesHome(s) && HeldOk(s)
    ensures HeldOk(Apply(s, step))
  {
    RunsStay(s, step);
    if step.Hear? {
      HearKeepsHeldOk(s, step.i);
    } else if !step.Forward? {
      assert Apply(s, step).net.held == s.net.held;
    }
  }

  lemma StepKeepsReportsOk(s: State, step: Step)
    requires Enabled(s, step) && HeldOk(s) && ReportsOk(s)
    ensures ReportsOk(Apply(s, step))
  {
    RunsStay(s, step);
    if !step.Forward? && !step.File? && !step.LoseReport? {
      assert Apply(s, step).net.reports == s.net.reports;
    }
  }

  // ---------- the history is the bounded log of the calls made on it ----------

  ghost predicate CallsOk(s: State) {
    && s.master.history == H.Bounded(s.log.calls, s.maxSize)
    && H.MasterOps(s.log.calls)
    && (forall k :: 0 <= k < |H.Records(s.log.calls)| ==> H.Records(s.log.calls)[k].id in s.log.issued)
  }

  lemma CallMade(calls: seq<H.Op>, op: H.Op)
    ensures Last(calls + [op]) == op && Front(calls + [op]) == calls
  {
  }

  lemma SubmitKeepsCallsOk(s: State, req: ReqId, script: string, timeout: int, targets: seq<AgentId>, user: string, now: int)
    requires CallsOk(s) && req !in s.log.issued
    ensures CallsOk(Submitted(s, req, script, timeout, targets, user, now))
  {
    CallMade(s.log.calls, H.Add(NewRecord(req, script, timeout, targets, user, now)));
  }

  lemma FileKeepsCallsOk(s: State, i: nat, now: int)
    requires Enabled(s, File(i, now)) && CallsOk(s)
    ensures CallsOk(Filed(s, i, now))
  {
    CallMade(s.log.calls, H.Update(s.net.reports[i].req, ResultOf(s.net.reports[i].agent, s.net.reports[i].outcome), now));
  }

  lemma CallsUntouched(s: State, step: Step)
    requires Enabled(s, step) && !step.Submit? && !step.File?
    ensures Apply(s, step).log.calls == s.log.calls && Apply(s, step).master.history == s.master.history
  {
  }

  lemma LogsUntouched(s: State, step: Step)
    requires Enabled(s, step) && !step.Submit? && !step.File?
    ensures Apply(s, step).log.issued == s.log.issued && Apply(s, step).log.settled == s.log.settled
  {
  }

  lemma SizeStays(s: State, step: Step)
    requires Enabled(s, step)
    ensures Apply(s, step).maxSize == s.maxSize
  {
  }

  lemma StepKeepsCallsOk(s: State, step: Step)
    requires Enabled(s, step) && CallsOk(s)
    ensures CallsOk(Apply(s, step))
  {
    match step
    case Submit(req, script, timeout, targets, user, now) =>
      SubmitKeepsCallsOk(s, req, script, timeout, targets, user, now);
    case File(i, now) => FileKeepsCallsOk(s, i, now);
    case _ =>
      CallsUntouched(s, step);
      LogsUntouched(s, step);
      SizeStays(s, step);
  }

  lemma HistoryDistinct(s: State)
    requires CallsOk(s)
    ensures H.DistinctIds(s.master.history)
    ensures forall k :: 0 <= k < |s.master.history| ==> s.master.history[k].id in s.log.issued
  {
    H.BoundedIsNewest(s.log.calls, s.maxSize);
    H.LogKeepsIds(s.log.calls);
  }

  // ---------- records ----------

  function OutcomeOf(result: H.ExecResult): Outcome {
    Outcome(result.exitCode, result.output, result.error)
  }

  ghost predicate RecordOk(s: State, record: H.ExecRecord) {
    && record.id in s.log.issued
    && s.log.issued[record.id] == Request(record.script, record.timeout, record.agentIDs)
    && forall a :: a in record.results ==>
         && record.results[a] == ResultOf(a, OutcomeOf(record.results[a]))
         && Produced(s.log.runs, a, record.id, OutcomeOf(record.results[a]))
  }

  ghost predicate RecordsOk(s: State) {
    forall k :: 0 <= k < |s.master.history| ==> RecordOk(s, s.master.history[k])
  }

  lemma RecordStaysOk(s: State, step: Step, record: H.ExecRecord)
    requires Enabled(s, step) && RecordOk(s, record)
    ensures RecordOk(Apply(s, step), record)
  {
    RunsStay(s, step);
    if !step.Submit? && !step.File? {
      LogsUntouched(s, step);
    }
  }

  lemma StepKeepsRecordsOk(s: State, step: Step)
    requires Enabled(s, step) && ReportsOk(s) && RecordsOk(s)
    ensures RecordsOk(Apply(s, step))
  {
    var s' := Apply(s, step);
    forall k | 0 <= k < |s.master.history| ensures RecordOk(s', s.master.history[k]) {
      RecordStaysOk(s, step, s.master.history[k]);
    }
    if step.File? {
      var r := s.net.reports[step.i];
      var k := H.IndexOf(s.master.history, r.req);
      if k < |s.master.history| {
        assert RecordOk(s', s'.master.history[k]);
      }
    } else if !step.Submit? {
      CallsUntouched(s, step);
    }
  }

  // ---------- the record of a request shows exactly the settled answers ----------

  ghost predicate ShowsSettled(s: State, record: H.ExecRecord) {
    forall a :: a in record.results <==> Count(s.log.settled, Same, Token(record.id, a)) > 0
  }

  ghost predicate ResultsAreSettled(s: State) {
    forall k :: 0 <= k < |s.master.history| ==> ShowsSettled(s, s.master.history[k])
  }

  lemma StepKeepsResultsSettled(s: State, step: Step)
    requires Enabled(s, step) && CallsOk(s) && ResultsAreSettled(s) && forall t :: Balanced(s, t)
    ensures ResultsAreSettled(Apply(s, step))
  {
    var s' := Apply(s, step);
    if step.Submit? {
      SubmitShowsSettled(s, step);
    } else if step.File? {
      FileShowsSettled(s, step.i, step.now);
    } else {
      CallsUntouched(s, step);
      LogsUntouched(s, step);
    }
  }

  lemma SubmitShowsSettled(s: State, step: Step)
    requires step.Submit? && Enabled(s, step) && ResultsAreSettled(s) && forall t :: Balanced(s, t)
    ensures ResultsAreSettled(Apply(s, step))
  {
    var s' := Apply(s, step);
    var record := H.WithBrief(NewRecord(step.req, step.script, step.timeout, step.targets, step.user, step.now));
    forall a ensures Count(s.log.settled, Same, Token(record.id, a)) == 0 {
      assert Balanced(s, Token(record.id, a));
    }
    assert ShowsSettled(s', record);
    forall k | 0 <= k < |s.master.history| ensures ShowsSettled(s', s.master.history[k]) {
      assert ShowsSettled(s, s.master.history[k]);
    }
  }

  lemma FileShowsSettled(s: State, i: nat, now: int)
    requires Enabled(s, File(i, now)) && CallsOk(s) && ResultsAreSettled(s)
    ensures ResultsAreSettled(Filed(s, i, now))
  {
    HistoryDistinct(s);
    var s' := Filed(s, i, now);
    var r := s.net.reports[i];
    var at := H.IndexOf(s.master.history, r.req);
    forall k | 0 <= k < |s'.master.history| ensures ShowsSettled(s', s'.master.history[k]) {
      assert ShowsSettled(s, s.master.history[k]);
      assert k != at ==> s.master.history[k].id != r.req;
      forall a ensures a in s'.master.history[k].results <==> Count(s'.log.settled, Same, Token(s'.master.history[k].id, a)) > 0 {
        CountAppend(s.log.settled, ReportToken(r), Same, Token(s'.master.history[k].id, a));
      }
    }
  }

  // ---------- all of it, over every run ----------

  ghost predicate AllOk(s: State) {
    && OrdersOk(s)
    && RunsOk(s) && RepliesOk(s) && HeldOk(s) && ReportsOk(s)
    && CallsOk(s) && RecordsOk(s) && ResultsAreSettled(s)
  }

  lemma StepKeepsAllOk(s: State, step: Step)
    requires Enabled(s, step) && Inv(s) && AllOk(s)
    ensures AllOk(Apply(s, step))
  {
    StepKeepsOrdersOk(s, step);
    StepKeepsRunsOk(s, step);
    StepKeepsRepliesOk(s, step);
    StepKeepsHeldOk(s, step);
    StepKeepsReportsOk(s, step);
    StepKeepsCallsOk(s, step);
    StepKeepsRecordsOk(s, step);
    StepKeepsResultsSettled(s, step);
  }

  lemma {:induction false} RunKeepsAllOk(s: State, steps: seq<Step>, s': State)
    requires Inv(s) && AllOk(s) && Runs(s, steps, s')
    ensures Inv(s') && AllOk(s')
    decreases |steps|
  {
    if steps != [] {
      StepKeepsInv(s, steps[0]);
      StepKeepsAllOk(s, steps[0]);
      RunKeepsAllOk(Apply(s, steps[0]), steps[1..], s');
    }
  }

  /** The run of agent a that answers request record.id with the result on file. */
  ghost predicate Explains(s: State, run: Run, record: H.ExecRecord, a: AgentId)
    requires a in record.results
  {
    && run in s.log.runs
    && run.agent == a && run.req == record.id
    && run.script == record.script && run.timeout == record.timeout
    && OwnedBy(s, run.conn, a)
    && record.results[a] == H.ExecResult(a, run.outcome.exitCode, run.outcome.output, run.outcome.error, true)
  }

  /**
    Main result: in every reachable state, each result on file belongs to a listed agent
    and is the outcome of that agent running the record's own script and timeout, asked
    for on a connection accepted under the agent's id.
   */
  lemma Correlation(maxSize: nat, steps: seq<Step>, s: State, k: nat, a: AgentId)
    requires Runs(Init(maxSize), steps, s)
    requires k < |s.master.history| && a in s.master.history[k].results
    ensures a in s.master.history[k].agentIDs
    ensures exists run :: Explains(s, run, s.master.history[k], a)
  {
    RunKeepsAllOk(Init(maxSize), steps, s);
    var record := s.master.history[k];
    assert RecordOk(s, record);
    var run :| run in s.log.runs && run.agent == a && run.req == record.id && run.outcome == OutcomeOf(record.results[a]);
    assert RunOk(s, run);
    assert Explains(s, run, record, a);
  }

  /** Nothing of request r is on its way to be started, running, or on its way back. */
  ghost predicate Quiet(s: State, t: Token) {
    && Unsent(s, t) == 0
    && Count(s.net.down, DownToken, t) + Count(s.net.routed, ParcelToken, t) + Count(s.net.parcels, ParcelToken, t) == 0
    && Count(s.net.jobs, JobToken, t) + Count(s.net.replies, ReplyToken, t) + Count(s.net.held, ReplyToken, t) + Count(s.net.reports, ReportToken, t) == 0
  }

  ghost predicate Lossless(s: State, t: Token) {
    Count(s.log.lostBefore, Same, t) + Count(s.log.lostAfter, Same, t) == 0
  }

  /**
    Main result: once nothing of a retained request is in flight, the agents listed but
    without a result are exactly those all of whose deliveries were lost; with no loss,
    the agents with a result are exactly the listed ones.
   */
  lemma MissingAnswersAreLosses(maxSize: nat, steps: seq<Step>, s: State, k: nat, a: AgentId)
    requires Runs(Init(maxSize), steps, s)
    requires k < |s.master.history| && Quiet(s, Token(s.master.history[k].id, a))
    ensures var t := Token(s.master.history[k].id, a);
            a in s.master.history[k].results <==> Count(s.log.lostBefore, Same, t) + Count(s.log.lostAfter, Same, t) < Listed(s, t)
    ensures Lossless(s, Token(s.master.history[k].id, a)) ==> (a in s.master.history[k].results <==> a in s.master.history[k].agentIDs)
  {
    RunKeepsAllOk(Init(maxSize), steps, s);
    assert RecordOk(s, s.master.history[k]);
    assert ShowsSettled(s, s.master.history[k]);
    assert Balanced(s, Token(s.master.history[k].id, a));
  }

  /** Main result: in every reachable state a record is completed iff at least one answer is on file. */
  lemma CompletedMeansAnswered(maxSize: nat, steps: seq<Step>, s: State, k: nat)
    requires Runs(Init(maxSize), steps, s) && k < |s.master.history|
    ensures H.StatusTellsAnswers(s.master.history[k])
    ensures s.master.history[k].status == "completed" <==>
            exists a :: Count(s.log.settled, Same, Token(s.master.history[k].id, a)) > 0
  {
    RunKeepsAllOk(Init(maxSize), steps, s);
    H.StatusInEveryHistory(s.log.calls, s.maxSize, k);
    assert ShowsSettled(s, s.master.history[k]);
    if s.master.history[k].results != map[] {
      var a :| a in s.master.history[k].results;
    }
  }
}

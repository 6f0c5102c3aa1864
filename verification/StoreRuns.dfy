/**
  Any sequence of calls on the inventory: what agents, operators and the periodic sweep
  can do to one machine's record (internal/master/store/store.go, driven by
  internal/master/api/api.go and cmd/master/main.go).
 */
module StoreRuns {
  import opened Types
  import opened MachineStore

  /**
    Report, Heartbeat and Measure are messages from agents; stamp is the id the gateway
    wrote on them. The payload of a report may name any agent: the master overwrites it.
   */
  datatype Event =
    | Report(stamp: AgentId, payload: AgentInfo, at: int)
    | Heartbeat(stamp: AgentId, at: int)
    | Measure(stamp: AgentId, sample: Metrics, at: int)
    | Tag(id: AgentId, tags: seq<string>, at: int)
    | Regroup(id: AgentId, group: string, at: int)
    | Offline(id: AgentId, at: int)
    | Sweep(threshold: int, at: int)

  /** The info of a heartbeat, and of a register that the gateway resends after a reconnect. */
  function Bare(id: AgentId): AgentInfo {
    AgentInfo(id, "", "", "", "", "", "", "", "", "", 0, 0, 0, 0, 0, ONLINE, 0, [], "", None)
  }

  function Changed(table: map<AgentId, AgentInfo>, event: Event): map<AgentId, AgentInfo> {
    match event
    case Report(id, payload, at) => table[id := Reported(Find(table, id), payload.(agentID := id), at)]
    case Heartbeat(id, at) => table[id := Reported(Find(table, id), Bare(id), at)]
    case Measure(id, sample, at) => if id in table then table[id := Measured(table[id], sample, at)] else table
    case Tag(id, tags, _) => if id in table then table[id := table[id].(tags := tags)] else table
    case Regroup(id, group, _) => if id in table then table[id := table[id].(group := group)] else table
    case Offline(id, _) => if id in table then table[id := table[id].(status := OFFLINE)] else table
    case Sweep(threshold, at) => SweptTable(table, at - threshold)
  }

  function After(events: seq<Event>): map<AgentId, AgentInfo> {
    if events == [] then map[] else Changed(After(Front(events)), Last(events))
  }

  // ---------- one agent cannot touch another's record ----------

  /** A message that came in on a connection accepted under another id. */
  predicate FromOther(event: Event, a: AgentId) {
    (event.Report? || event.Heartbeat? || event.Measure?) && event.stamp != a
  }

  function WithoutOthers(events: seq<Event>, a: AgentId): seq<Event> {
    if events == [] then []
    else if FromOther(Last(events), a) then WithoutOthers(Front(events), a)
    else WithoutOthers(Front(events), a) + [Last(events)]
  }

  /** A call changes the record of a as a function of that record alone. */
  lemma ChangeIsLocal(table: map<AgentId, AgentInfo>, table': map<AgentId, AgentInfo>, event: Event, a: AgentId)
    requires Find(table, a) == Find(table', a)
    ensures Find(Changed(table, event), a) == Find(Changed(table', event), a)
    ensures FromOther(event, a) ==> Find(Changed(table, event), a) == Find(table, a)
  {
  }

  /** Main result: the record of a is the one that results when all other agents' messages are removed. */
  lemma {:induction false} AgentsDoNotInterfere(events: seq<Event>, a: AgentId)
    ensures Find(After(events), a) == Find(After(WithoutOthers(events, a)), a)
  {
    if events != [] {
      var kept := WithoutOthers(Front(events), a);
      AgentsDoNotInterfere(Front(events), a);
      ChangeIsLocal(After(Front(events)), After(kept), Last(events), a);
      assert Front(kept + [Last(events)]) == kept;
    }
  }

  lemma {:induction false} KeyedByOwnId(events: seq<Event>)
    ensures forall k :: k in After(events) ==> After(events)[k].agentID == k
  {
    if events != [] {
      KeyedByOwnId(Front(events));
    }
  }

  // ---------- merging reports ----------

  datatype Field =
    | Hostname | Os | DistributorID | Description | Release | Codename | PublicIP | Location | CpuModel
    | CpuCores | MemoryMB | DiskGB | DiskUsed | Uptime

  datatype Value = Str(text: string) | Num(n: int)

  function Get(info: AgentInfo, f: Field): Value {
    match f
    case Hostname => Str(info.hostname)
    case Os => Str(info.os)
    case DistributorID => Str(info.distributorID)
    case Description => Str(info.description)
    case Release => Str(info.release)
    case Codename => Str(info.codename)
    case PublicIP => Str(info.publicIP)
    case Location => Str(info.location)
    case CpuModel => Str(info.cpuModel)
    case CpuCores => Num(info.cpuCores)
    case MemoryMB => Num(info.memoryMB)
    case DiskGB => Num(info.diskGB)
    case DiskUsed => Num(info.diskUsed)
    case Uptime => Num(info.uptime)
  }

  /** Whether a report has something to say about the field. */
  predicate Given(info: AgentInfo, f: Field) {
    match Get(info, f)
    case Str(text) => text != ""
    case Num(n) => n > 0
  }

  /** The report that an event carries for machine a, if any. */
  function ReportIn(event: Event, a: AgentId): Option<AgentInfo> {
    match event
    case Report(id, payload, _) => if id == a then Some(payload) else None
    case Heartbeat(id, _) => if id == a then Some(Bare(id)) else None
    case _ => None
  }

  function ReportsOf(events: seq<Event>, a: AgentId): seq<AgentInfo> {
    if events == [] then []
    else match ReportIn(Last(events), a)
      case Some(info) => ReportsOf(Front(events), a) + [info]
      case None => ReportsOf(Front(events), a)
  }

  /** Report i decides field f: it is the last one to give it, or the first of all when none does. */
  ghost predicate Decides(reports: seq<AgentInfo>, i: nat, f: Field) {
    && i < |reports|
    && (i == 0 || Given(reports[i], f))
    && (forall j :: i < j < |reports| ==> !Given(reports[j], f))
  }

  lemma MergedField(existing: AgentInfo, info: AgentInfo, f: Field)
    ensures Get(Merged(existing, info), f) == if Given(info, f) then Get(info, f) else Get(existing, f)
  {
  }

  lemma StampedField(record: Option<AgentInfo>, info: AgentInfo, now: int, f: Field)
    ensures Get(Reported(record, info, now), f)
            == if record.None? || Given(info, f) then Get(info, f) else Get(record.value, f)
  {
    if record.Some? {
      MergedField(record.value, info.(lastSeen := now, status := ONLINE), f);
    }
  }

  lemma FieldUntouched(table: map<AgentId, AgentInfo>, event: Event, a: AgentId, f: Field)
    requires a in table
    requires event.Report? || event.Heartbeat? ==> event.stamp != a
    ensures a in Changed(table, event) && Get(Changed(table, event)[a], f) == Get(table[a], f)
  {
  }

  /** What one event does to a descriptive field. */
  lemma FieldStep(table: map<AgentId, AgentInfo>, event: Event, a: AgentId, f: Field)
    ensures a in Changed(table, event) <==> a in table || ReportIn(event, a).Some?
    ensures ReportIn(event, a).Some? && (a !in table || Given(ReportIn(event, a).value, f)) ==>
      Get(Changed(table, event)[a], f) == Get(ReportIn(event, a).value, f)
    ensures a in table && (ReportIn(event, a).None? || !Given(ReportIn(event, a).value, f)) ==>
      Get(Changed(table, event)[a], f) == Get(table[a], f)
  {
    if ReportIn(event, a).Some? {
      var info := ReportIn(event, a).value.(agentID := a);
      StampedField(Find(table, a), info, event.at, f);
      assert Get(info, f) == Get(ReportIn(event, a).value, f);
    } else if a in table {
      FieldUntouched(table, event, a, f);
    }
  }

  /**
    Main result: a machine is known iff it has reported, and every descriptive field shows
    the value of the report that decides it.
   */
  lemma {:induction false} FieldsFromReports(events: seq<Event>, a: AgentId, f: Field) returns (i: nat)
    ensures a in After(events) <==> ReportsOf(events, a) != []
    ensures a in After(events) ==>
      Decides(ReportsOf(events, a), i, f) && Get(After(events)[a], f) == Get(ReportsOf(events, a)[i], f)
  {
    i := 0;
    if events != [] {
      i := FieldsFromReports(Front(events), a, f);
      FieldStep(After(Front(events)), Last(events), a, f);
      var report := ReportIn(Last(events), a);
      if report.Some? && (a !in After(Front(events)) || Given(report.value, f)) {
        i := |ReportsOf(Front(events), a)|;
      }
    }
  }

  /** At most one report can decide a field, so the previous lemma leaves no choice. */
  lemma DecidesOnce(reports: seq<AgentInfo>, i: nat, j: nat, f: Field)
    requires Decides(reports, i, f) && Decides(reports, j, f)
    ensures i == j
  {
  }

  lemma MergeAssociative(a: AgentInfo, b: AgentInfo, c: AgentInfo)
    ensures Merged(Merged(a, b), c) == Merged(a, Merged(b, c))
  {
  }

  lemma MergeIdempotent(a: AgentInfo, b: AgentInfo)
    ensures Merged(a, a) == a && Merged(Merged(a, b), b) == Merged(a, b)
  {
  }

  /** Merging a report that gives no field changes the time and status only. */
  lemma EmptyReportMergesNothing(existing: AgentInfo, info: AgentInfo)
    requires forall f :: !Given(info, f)
    ensures Merged(existing, info) == existing.(lastSeen := info.lastSeen, status := info.status)
  {
    assert !Given(info, Hostname) && !Given(info, Os) && !Given(info, DistributorID) && !Given(info, Description);
    assert !Given(info, Release) && !Given(info, Codename) && !Given(info, PublicIP) && !Given(info, Location);
    assert !Given(info, CpuModel) && !Given(info, CpuCores) && !Given(info, MemoryMB) && !Given(info, DiskGB);
    assert !Given(info, DiskUsed) && !Given(info, Uptime);
  }

  /** A bare resync register or a heartbeat changes the time and status of a known machine, nothing else. */
  lemma BareReportOnlyRefreshes(table: map<AgentId, AgentInfo>, id: AgentId, payload: AgentInfo, at: int)
    requires id in table && (forall f :: !Given(payload, f))
    ensures Changed(table, Report(id, payload, at)) == table[id := table[id].(lastSeen := at, status := ONLINE)]
    ensures Changed(table, Heartbeat(id, at)) == table[id := table[id].(lastSeen := at, status := ONLINE)]
  {
    var stamped := payload.(agentID := id, lastSeen := at, status := ONLINE);
    forall f ensures !Given(stamped, f) {
      assert !Given(payload, f) && Get(stamped, f) == Get(payload, f);
    }
    EmptyReportMergesNothing(table[id], stamped);
    assert forall f :: !Given(Bare(id).(lastSeen := at, status := ONLINE), f) by {
      assert forall f :: Get(Bare(id), f) in {Str(""), Num(0)};
      assert forall f :: Get(Bare(id).(lastSeen := at, status := ONLINE), f) == Get(Bare(id), f);
    }
    EmptyReportMergesNothing(table[id], Bare(id).(lastSeen := at, status := ONLINE));
  }

  lemma SetterOwnsItsField(table: map<AgentId, AgentInfo>, event: Event, a: AgentId)
    requires a in table
    ensures a in Changed(table, event)
    ensures !(event.Tag? && event.id == a) ==> Changed(table, event)[a].tags == table[a].tags
    ensures !(event.Regroup? && event.id == a) ==> Changed(table, event)[a].group == table[a].group
    ensures !(event.Measure? && event.stamp == a) ==> Changed(table, event)[a].metrics == table[a].metrics
  {
  }

  /** What an operator or a metrics message set stays until the same kind of event sets it again. */
  lemma {:induction false} SettersOwnTheirFields(events: seq<Event>, more: seq<Event>, a: AgentId)
    requires a in After(events)
    ensures a in After(events + more)
    ensures (forall k :: 0 <= k < |more| ==> !(more[k].Tag? && more[k].id == a)) ==>
      After(events + more)[a].tags == After(events)[a].tags
    ensures (forall k :: 0 <= k < |more| ==> !(more[k].Regroup? && more[k].id == a)) ==>
      After(events + more)[a].group == After(events)[a].group
    ensures (forall k :: 0 <= k < |more| ==> !(more[k].Measure? && more[k].stamp == a)) ==>
      After(events + more)[a].metrics == After(events)[a].metrics
  {
    if more == [] {
      assert events + more == events;
    } else {
      SettersOwnTheirFields(events, Front(more), a);
      assert Front(events + more) == events + Front(more);
      assert Last(events + more) == more[|more| - 1];
      SetterOwnsItsField(After(events + Front(more)), Last(more), a);
    }
  }

  /** And it is what that kind of event last said. */
  lemma SettersSet(events: seq<Event>, event: Event, a: AgentId)
    requires a in After(events)
    ensures a in After(events + [event])
    ensures event.Tag? && event.id == a ==> After(events + [event])[a].tags == event.tags
    ensures event.Regroup? && event.id == a ==> After(events + [event])[a].group == event.group
    ensures event.Offline? && event.id == a ==> After(events + [event])[a].status == "offline"
    ensures event.Measure? && event.stamp == a ==>
              var record := After(events + [event])[a];
              record.metrics == Some(event.sample) && record.lastSeen == event.at && record.status == "online"
  {
    assert Front(events + [event]) == events;
  }

  /** Main result: over any run, tags, group and metrics are those of the last event that set them. */
  lemma LastSetterWins(events: seq<Event>, event: Event, more: seq<Event>, a: AgentId)
    requires a in After(events)
    ensures a in After(events + [event] + more)
    ensures event.Tag? && event.id == a && (forall k :: 0 <= k < |more| ==> !(more[k].Tag? && more[k].id == a)) ==>
      After(events + [event] + more)[a].tags == event.tags
    ensures event.Regroup? && event.id == a && (forall k :: 0 <= k < |more| ==> !(more[k].Regroup? && more[k].id == a)) ==>
      After(events + [event] + more)[a].group == event.group
    ensures event.Measure? && event.stamp == a && (forall k :: 0 <= k < |more| ==> !(more[k].Measure? && more[k].stamp == a)) ==>
      After(events + [event] + more)[a].metrics == Some(event.sample)
  {
    SettersSet(events, event, a);
    SettersOwnTheirFields(events + [event], more, a);
  }

  /** The first report of a machine is taken whole, and a first heartbeat gives a blank record. */
  lemma FirstReportIsWhole(events: seq<Event>, event: Event, a: AgentId)
    requires a !in After(events)
    ensures event.Report? && event.stamp == a ==>
              Find(After(events + [event]), a)
              == Some(event.payload.(agentID := a, lastSeen := event.at, status := "online"))
    ensures event.Heartbeat? && event.stamp == a ==>
              a in After(events + [event])
              && var record := After(events + [event])[a];
                 && (forall f :: Get(record, f) in {Str(""), Num(0)})
                 && record.tags == [] && record.group == "" && record.metrics == None
                 && record.lastSeen == event.at && record.status == "online"
    ensures !(event.Report? || event.Heartbeat?) || event.stamp != a ==> a !in After(events + [event])
  {
    assert Front(events + [event]) == events;
  }

  // ---------- online and offline ----------

  ghost predicate Clocked(events: seq<Event>) {
    forall i, j :: 0 <= i <= j < |events| ==> events[i].at <= events[j].at
  }

  /** The calls the master makes: it never calls SetOffline and always sweeps with one threshold. */
  ghost predicate MasterEvents(events: seq<Event>, threshold: int) {
    && Clocked(events)
    && forall k :: 0 <= k < |events| ==> !events[k].Offline? && (events[k].Sweep? ==> events[k].threshold == threshold)
  }

  /** When a message of a last came in. */
  function LastHeard(events: seq<Event>, a: AgentId): Option<int> {
    if events == [] then None
    else if (Last(events).Report? || Last(events).Heartbeat? || Last(events).Measure?) && Last(events).stamp == a
    then Some(Last(events).at)
    else LastHeard(Front(events), a)
  }

  function LastSweep(events: seq<Event>): Option<int> {
    if events == [] then None
    else if Last(events).Sweep? then Some(Last(events).at)
    else LastSweep(Front(events))
  }

  /** Main result: the status says exactly whether the machine was heard from since the last cutoff. */
  lemma {:induction false} StatusIsExact(events: seq<Event>, threshold: int, a: AgentId)
    requires MasterEvents(events, threshold) && threshold >= 0 && a in After(events)
    ensures Some(After(events)[a].lastSeen) == LastHeard(events, a)
    ensures LastSweep(events).Some? ==> LastSweep(events).value <= Last(events).at
    ensures events != [] && After(events)[a].lastSeen <= Last(events).at
    ensures After(events)[a].status ==
      if LastSweep(events).None? || After(events)[a].lastSeen >= LastSweep(events).value - threshold then "online" else "offline"
  {
    var front := Front(events);
    assert MasterEvents(front, threshold) by {
      assert forall k :: 0 <= k < |front| ==> front[k] == events[k];
    }
    assert front != [] ==> Last(front) == events[|events| - 2];
    if a in After(front) {
      StatusIsExact(front, threshold, a);
    } else {
      SweepBefore(front);
    }
  }

  lemma {:induction false} SweepBefore(events: seq<Event>)
    requires Clocked(events)
    ensures LastSweep(events).Some? ==> events != [] && LastSweep(events).value <= Last(events).at
  {
    if events != [] {
      var front := Front(events);
      assert forall k :: 0 <= k < |front| ==> front[k] == events[k];
      SweepBefore(front);
    }
  }

  /**
    Main result, with the constants of cmd/master/main.go: at any time now, a machine heard from
    in the last 90 s is online; and while sweeps come at most 60 s apart (counting from the
    first event), an online machine was heard from in the last 150 s.
   */
  lemma LivenessBounds(events: seq<Event>, a: AgentId, now: int)
    requires MasterEvents(events, 90) && a in After(events) && events != [] && Last(events).at <= now
    ensures LastHeard(events, a).Some? && events != []
    ensures LastHeard(events, a).value >= now - 90 ==> After(events)[a].status == "online"
    ensures now - (if LastSweep(events).Some? then LastSweep(events).value else events[0].at) <= 60
            && After(events)[a].status == "online"
            ==> LastHeard(events, a).value >= now - 150
  {
    StatusIsExact(events, 90, a);
    HeardAfterStart(events, a);
  }

  lemma {:induction false} HeardAfterStart(events: seq<Event>, a: AgentId)
    requires Clocked(events)
    ensures LastHeard(events, a).Some? ==> events != [] && events[0].at <= LastHeard(events, a).value
  {
    if events != [] {
      var front := Front(events);
      assert forall k :: 0 <= k < |front| ==> front[k] == events[k];
      HeardAfterStart(front, a);
    }
  }

  /** Right after a sweep, online means heard from since its cutoff. */
  lemma SweepSettlesStatus(events: seq<Event>, a: AgentId)
    requires MasterEvents(events, 90) && a in After(events) && events != [] && Last(events).Sweep?
    ensures LastHeard(events, a).Some?
    ensures After(events)[a].status == "online" <==> LastHeard(events, a).value >= Last(events).at - 90
  {
    StatusIsExact(events, 90, a);
  }
}

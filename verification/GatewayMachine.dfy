/**
  The gateway under every interleaving (internal/gateway/proxy/proxy.go and
  cmd/gateway/main.go).

  Each agent connection has one reader goroutine, whose progress is a phase; the
  single connectToMaster goroutine has another. One Step is what one goroutine does
  between two points at which another one can get in: a registry operation under
  its lock, one send to the master under its lock, one read.

  Connections and master links are numbered in the order in which they appear.
 */
module GatewayMachine {
  import opened Types
  import opened Registry

  type ConnId = nat
  type LinkId = nat

  /** Where the goroutines serving one agent connection are. */
  datatype Phase =
    | Accepting     // upgraded; RegisterAgent not called yet
    | Reading       // reader waits for the next message
    | RegisterRead  // a register message was read; RegisterAgent comes next
    | RegisterKept  // RegisterAgent done; SendToMaster comes next
    | AnswerRead    // an exec response was read; SendToMaster comes next
    | Failing       // read error; the deferred UnregisterAgent comes next
    | Closing       // UnregisterAgent done; Close comes next
    | Exited

  datatype Conn = Conn(owner: AgentId, phase: Phase, open: bool, registerSeen: bool)

  /** Where connectToMaster is. */
  datatype LinkPhase =
    | Dialing
    | Dialed(link: LinkId)                           // SetMasterConn comes next
    | Linked(link: LinkId)                           // GetAllAgentIDs comes next
    | Resyncing(link: LinkId, rest: seq<AgentId>)    // registers still to be sent
    | Routing(link: LinkId)                          // waits for the next message from the master
    | Delivering(link: LinkId, target: ConnId)       // target looked up; the write comes next
    | Breaking(link: LinkId)                         // read error; ClearMasterConn comes next
    | Hanging(link: LinkId)                          // cleared; Close comes next

  datatype State = State(
    registry: map<AgentId, ConnId>,
    conns: seq<Conn>,
    masterConn: Option<LinkId>,
    phase: LinkPhase,
    links: nat,
    /** Ids of which a register was handed to the link in masterConn since it was set. */
    handed: set<AgentId>)

  const Init := State(map[], [], None, Dialing, 0, {})

  datatype Step =
    | Accept(id: AgentId)
    | AcceptRegister(c: ConnId)
    | ReadRegister(c: ConnId)
    | KeepRegister(c: ConnId)
    | ForwardRegister(c: ConnId)
    | ReadAnswer(c: ConnId)
    | ForwardAnswer(c: ConnId)
    | ReadFail(c: ConnId)
    | Unregister(c: ConnId)
    | CloseConn(c: ConnId)
    | Dial
    | SetMaster
    | Snapshot(ids: seq<AgentId>)
    | ResyncSend
    | ResyncDone
    | Route(id: AgentId)
    | Delivered
    | LinkFail
    | ClearMaster
    | CloseLink

  predicate At(s: State, c: ConnId, phase: Phase) {
    c < |s.conns| && s.conns[c].phase == phase
  }

  /** ids lists each registered id once, in the unspecified order of a map range. */
  ghost predicate Enumerates(ids: seq<AgentId>, registry: map<AgentId, ConnId>) {
    && (forall id :: id in ids <==> id in registry)
    && (forall i, j :: 0 <= i < j < |ids| ==> ids[i] != ids[j])
  }

  ghost predicate Enabled(s: State, step: Step) {
    match step
    case Accept(id) => id != ""
    case AcceptRegister(c) => At(s, c, Accepting)
    case ReadRegister(c) => At(s, c, Reading)
    case KeepRegister(c) => At(s, c, RegisterRead)
    case ForwardRegister(c) => At(s, c, RegisterKept)
    case ReadAnswer(c) => At(s, c, Reading)
    case ForwardAnswer(c) => At(s, c, AnswerRead)
    case ReadFail(c) => At(s, c, Reading)
    case Unregister(c) => At(s, c, Failing)
    case CloseConn(c) => At(s, c, Closing)
    case Dial => s.phase.Dialing?
    case SetMaster => s.phase.Dialed?
    case Snapshot(ids) => s.phase.Linked? && Enumerates(ids, s.registry)
    case ResyncSend => s.phase.Resyncing? && s.phase.rest != []
    case ResyncDone => s.phase.Resyncing? && s.phase.rest == []
    case Route(_) => s.phase.Routing?
    case Delivered => s.phase.Delivering?
    case LinkFail => s.phase.Routing?
    case ClearMaster => s.phase.Breaking?
    case CloseLink => s.phase.Hanging?
  }

  function WithPhase(s: State, c: ConnId, phase: Phase): State
    requires c < |s.conns|
  {
    s.(conns := s.conns[c := s.conns[c].(phase := phase)])
  }

  function Closed(conns: seq<Conn>, c: Option<ConnId>): seq<Conn> {
    if c.Some? && c.value < |conns| then conns[c.value := conns[c.value].(open := false)] else conns
  }

  /** RegisterAgent for connection c under its own id; the connection it replaces is closed. */
  function RegisterConn(s: State, c: ConnId): State
    requires c < |s.conns|
  {
    var id := s.conns[c].owner;
    s.(registry := Registered(s.registry, id, c), conns := Closed(s.conns, Displaced(s.registry, id, c)))
  }

  /** SendToMaster of a register for id: it reaches the link in masterConn, if there is one. */
  function HandOver(s: State, id: AgentId): State {
    if s.masterConn.Some? then s.(handed := s.handed + {id}) else s
  }

  ghost function Apply(s: State, step: Step): State
    requires Enabled(s, step)
  {
    match step
    case Accept(id) => s.(conns := s.conns + [Conn(id, Accepting, true, false)])
    case AcceptRegister(c) => WithPhase(RegisterConn(s, c), c, Reading)
    case ReadRegister(c) => s.(conns := s.conns[c := s.conns[c].(phase := RegisterRead, registerSeen := true)])
    case KeepRegister(c) => WithPhase(RegisterConn(s, c), c, RegisterKept)
    case ForwardRegister(c) => WithPhase(HandOver(s, s.conns[c].owner), c, Reading)
    case ReadAnswer(c) => WithPhase(s, c, AnswerRead)
    case ForwardAnswer(c) => WithPhase(s, c, Reading)
    case ReadFail(c) => WithPhase(s, c, Failing)
    case Unregister(c) => WithPhase(s.(registry := Unregistered(s.registry, s.conns[c].owner)), c, Closing)
    case CloseConn(c) => s.(conns := s.conns[c := s.conns[c].(phase := Exited, open := false)])
    case Dial => s.(phase := Dialed(s.links), links := s.links + 1)
    case SetMaster => s.(masterConn := Some(s.phase.link), phase := Linked(s.phase.link), handed := {})
    case Snapshot(ids) => s.(phase := Resyncing(s.phase.link, ids))
    case ResyncSend => HandOver(s, s.phase.rest[0]).(phase := Resyncing(s.phase.link, s.phase.rest[1..]))
    case ResyncDone => s.(phase := Routing(s.phase.link))
    case Route(id) =>
      (match Lookup(s.registry, id)
       case Some(c) => s.(phase := Delivering(s.phase.link, c))
       case None => s)
    case Delivered => s.(phase := Routing(s.phase.link))
    case LinkFail => s.(phase := Breaking(s.phase.link))
    case ClearMaster => s.(masterConn := None, phase := Hanging(s.phase.link))
    case CloseLink => s.(phase := Dialing)
  }

  /** s' is reached from s by the steps, in order, each taken where it is enabled. */
  ghost predicate Runs(s: State, steps: seq<Step>, s': State)
    decreases |steps|
  {
    if steps == [] then s' == s
    else Enabled(s, steps[0]) && Runs(Apply(s, steps[0]), steps[1..], s')
  }

  lemma {:induction false} RunOneMore(s: State, steps: seq<Step>, mid: State, step: Step)
    requires Runs(s, steps, mid) && Enabled(mid, step)
    ensures Runs(s, steps + [step], Apply(mid, step))
    decreases |steps|
  {
    if steps == [] {
      assert [step][1..] == [];
    } else {
      assert (steps + [step])[1..] == steps[1..] + [step];
      RunOneMore(Apply(s, steps[0]), steps[1..], mid, step);
    }
  }

  // ---------- the registry never names a connection whose reader is gone ----------

  /** Past RegisterAgent and before the reader's deferred UnregisterAgent. */
  predicate Served(phase: Phase) {
    phase in {Reading, RegisterRead, RegisterKept, AnswerRead, Failing}
  }

  ghost predicate RegistrySound(s: State) {
    forall id :: id in s.registry ==>
      && s.registry[id] < |s.conns|
      && s.conns[s.registry[id]].owner == id
      && Served(s.conns[s.registry[id]].phase)
  }

  lemma RegisterKeepsSound(s: State, c: ConnId, phase: Phase)
    requires RegistrySound(s) && c < |s.conns| && Served(phase)
    ensures RegistrySound(WithPhase(RegisterConn(s, c), c, phase))
  {
  }

  lemma StepKeepsRegistrySound(s: State, step: Step)
    requires RegistrySound(s) && Enabled(s, step)
    ensures RegistrySound(Apply(s, step))
  {
    if step.AcceptRegister? {
      RegisterKeepsSound(s, step.c, Reading);
    } else if step.KeepRegister? {
      RegisterKeepsSound(s, step.c, RegisterKept);
    }
  }

  // ---------- the link in masterConn is the one connectToMaster serves ----------

  predicate Attached(phase: LinkPhase) {
    phase.Linked? || phase.Resyncing? || phase.Routing? || phase.Delivering? || phase.Breaking?
  }

  ghost predicate LinkSound(s: State) {
    && s.masterConn == (if Attached(s.phase) then Some(s.phase.link) else None)
    && (!s.phase.Dialing? ==> s.phase.link + 1 == s.links)
  }

  lemma StepKeepsLinkSound(s: State, step: Step)
    requires LinkSound(s) && Enabled(s, step)
    ensures LinkSound(Apply(s, step))
  {
  }

  // ---------- no registered agent is missed by a (re)connected master ----------

  predicate AfterSnapshot(phase: LinkPhase) {
    phase.Resyncing? || phase.Routing? || phase.Delivering? || phase.Breaking?
  }

  /** Connection c has a register of id that was read and is not yet forwarded. */
  predicate HoldsRegister(s: State, c: ConnId, id: AgentId) {
    c < |s.conns| && s.conns[c].owner == id && s.conns[c].phase in {RegisterRead, RegisterKept}
  }

  /** The master has been told about id over this link, or a message that will tell it is on its way. */
  ghost predicate Announced(s: State, id: AgentId)
    requires id in s.registry
  {
    || id in s.handed
    || (s.phase.Resyncing? && id in s.phase.rest)
    || (exists c :: HoldsRegister(s, c, id))
    || (s.registry[id] < |s.conns| && !s.conns[s.registry[id]].registerSeen)
  }

  ghost predicate ResyncComplete(s: State) {
    AfterSnapshot(s.phase) ==> forall id :: id in s.registry ==> Announced(s, id)
  }

  /** Nothing is read from a connection before it is registered. */
  ghost predicate UnreadWhileAccepting(s: State) {
    forall c :: 0 <= c < |s.conns| && s.conns[c].phase == Accepting ==> !s.conns[c].registerSeen
  }

  lemma StepKeepsUnread(s: State, step: Step)
    requires UnreadWhileAccepting(s) && Enabled(s, step)
    ensures UnreadWhileAccepting(Apply(s, step))
  {
  }

  /** A held register stays held, or has just been handed over. */
  lemma HeldOrHanded(s: State, step: Step, c: ConnId, id: AgentId)
    requires Enabled(s, step) && LinkSound(s) && AfterSnapshot(Apply(s, step).phase) && !step.Snapshot?
    requires HoldsRegister(s, c, id)
    ensures HoldsRegister(Apply(s, step), c, id) || id in Apply(s, step).handed
  {
  }

  lemma StepKeepsResync(s: State, step: Step)
    requires RegistrySound(s) && LinkSound(s) && UnreadWhileAccepting(s) && ResyncComplete(s) && Enabled(s, step)
    ensures ResyncComplete(Apply(s, step))
  {
    var s' := Apply(s, step);
    if AfterSnapshot(s'.phase) && !step.Snapshot? {
      forall id | id in s'.registry ensures Announced(s', id) {
        if step.KeepRegister? && s.conns[step.c].owner == id {
          assert HoldsRegister(s', step.c, id);
        } else if step.AcceptRegister? && s.conns[step.c].owner == id {
        } else {
          assert Announced(s, id);
          if c :| HoldsRegister(s, c, id) {
            HeldOrHanded(s, step, c, id);
          } else if step.ReadRegister? && s.registry[id] == step.c {
            assert HoldsRegister(s', step.c, id);
          }
        }
      }
    }
  }

  // ---------- all invariants, over every run ----------

  ghost predicate Inv(s: State) {
    RegistrySound(s) && LinkSound(s) && UnreadWhileAccepting(s) && ResyncComplete(s)
  }

  lemma StepKeepsInv(s: State, step: Step)
    requires Inv(s) && Enabled(s, step)
    ensures Inv(Apply(s, step))
  {
    StepKeepsRegistrySound(s, step);
    StepKeepsLinkSound(s, step);
    StepKeepsUnread(s, step);
    StepKeepsResync(s, step);
  }

  lemma {:induction false} RunKeepsInv(s: State, steps: seq<Step>, s': State)
    requires Inv(s) && Runs(s, steps, s')
    ensures Inv(s')
    decreases |steps|
  {
    if steps != [] {
      StepKeepsInv(s, steps[0]);
      RunKeepsInv(Apply(s, steps[0]), steps[1..], s');
    }
  }

  /** Main result: in every reachable state the registry names only live readers of their own id. */
  lemma RegistryIsSound(steps: seq<Step>, s: State)
    requires Runs(Init, steps, s)
    ensures RegistrySound(s)
    ensures forall id :: (forall c :: 0 <= c < |s.conns| && s.conns[c].owner == id ==> s.conns[c].phase in {Closing, Exited})
                         ==> id !in s.registry
  {
    RunKeepsInv(Init, steps, s);
  }

  /** Main result: after the snapshot, every registered id is announced on this link or about to be. */
  lemma ResyncMissesNobody(steps: seq<Step>, s: State)
    requires Runs(Init, steps, s) && AfterSnapshot(s.phase)
    ensures s.masterConn == Some(s.phase.link)
    ensures forall id :: id in s.registry ==> Announced(s, id)
  {
    RunKeepsInv(Init, steps, s);
  }

  // ---------- handed means sent over this link ----------

  /** The step passes a register for id to the master's current link. */
  predicate Tells(s: State, step: Step, id: AgentId) {
    && s.masterConn.Some?
    && match step
       case ResyncSend => s.phase.Resyncing? && s.phase.rest != [] && s.phase.rest[0] == id
       case ForwardRegister(c) => At(s, c, RegisterKept) && s.conns[c].owner == id
       case _ => false
  }

  /** During the steps from s on, id is told to the link that is current at the end. */
  ghost predicate Told(s: State, steps: seq<Step>, id: AgentId)
    decreases |steps|
  {
    && steps != [] && Enabled(s, steps[0])
    && (|| Told(Apply(s, steps[0]), steps[1..], id)
        || (Tells(s, steps[0], id) && forall k :: 0 <= k < |steps| ==> !steps[k].SetMaster?))
  }

  lemma {:induction false} HandedFromHere(s: State, steps: seq<Step>, s': State, id: AgentId)
    requires Runs(s, steps, s')
    ensures id in s'.handed <==> Told(s, steps, id) || (id in s.handed && forall k :: 0 <= k < |steps| ==> !steps[k].SetMaster?)
    decreases |steps|
  {
    if steps != [] {
      var next, rest := Apply(s, steps[0]), steps[1..];
      HandedFromHere(next, rest, s', id);
      HandedInStep(s, steps[0], id);
      assert (forall k :: 0 <= k < |steps| ==> !steps[k].SetMaster?)
             <==> !steps[0].SetMaster? && forall k :: 0 <= k < |rest| ==> !rest[k].SetMaster? by {
        assert forall k :: 0 <= k < |rest| ==> rest[k] == steps[k + 1];
        assert forall k :: 1 <= k < |steps| ==> steps[k] == rest[k - 1];
      }
    }
  }

  lemma HandedInStep(s: State, step: Step, id: AgentId)
    requires Enabled(s, step)
    ensures id in Apply(s, step).handed <==> !step.SetMaster? && (id in s.handed || Tells(s, step, id))
  {
  }

  /** In every run the ids on record as handed are exactly those told to the current link since it was set. */
  lemma HandedMeansTold(steps: seq<Step>, s: State, id: AgentId)
    requires Runs(Init, steps, s)
    ensures id in s.handed <==> Told(Init, steps, id)
  {
    HandedFromHere(Init, steps, s, id);
  }

  // ---------- a connection whose reader is gone is closed ----------

  ghost predicate GoneAreClosed(s: State) {
    forall c :: 0 <= c < |s.conns| && s.conns[c].phase == Exited ==> !s.conns[c].open
  }

  lemma {:induction false} RunKeepsGoneClosed(s: State, steps: seq<Step>, s': State)
    requires GoneAreClosed(s) && Runs(s, steps, s')
    ensures GoneAreClosed(s')
    decreases |steps|
  {
    if steps != [] {
      RunKeepsGoneClosed(Apply(s, steps[0]), steps[1..], s');
    }
  }

  /** In every reachable state a connection whose reader has exited is closed. */
  lemma ExitedAreClosed(steps: seq<Step>, s: State, c: ConnId)
    requires Runs(Init, steps, s) && At(s, c, Exited)
    ensures !s.conns[c].open
  {
    RunKeepsGoneClosed(Init, steps, s);
  }

  /** Nothing of the resync is under way: snapshot sent, and every registered reader is between messages. */
  ghost predicate Drained(s: State) {
    && (s.phase.Routing? || s.phase.Delivering?)
    && (forall c :: 0 <= c < |s.conns| ==> s.conns[c].phase !in {RegisterRead, RegisterKept})
    && (forall id :: id in s.registry && s.registry[id] < |s.conns| ==> s.conns[s.registry[id]].registerSeen)
  }

  lemma DrainedMeansAllHanded(steps: seq<Step>, s: State)
    requires Runs(Init, steps, s) && Drained(s)
    ensures s.registry.Keys <= s.handed
  {
    RunKeepsInv(Init, steps, s);
    forall id | id in s.registry ensures id in s.handed {
      assert Announced(s, id);
      assert forall c :: !HoldsRegister(s, c, id);
    }
  }

  // ---------- the converse fails: a stale reader takes a newer connection out ----------

  /** The reader of c has not begun to exit or has yet to unregister, and nobody has closed c. */
  predicate Live(s: State, c: ConnId) {
    c < |s.conns| && Served(s.conns[c].phase) && s.conns[c].open
  }

  /**
    When a live registered connection drops out of the registry in one step and stays live:
    exactly when the reader of another connection of the same id unregisters.
   */
  lemma LiveLosesRegistrationExactly(s: State, step: Step, d: ConnId)
    requires Enabled(s, step) && Live(s, d)
    requires Lookup(s.registry, s.conns[d].owner) == Some(d)
    ensures var s' := Apply(s, step);
            (Live(s', d) && Lookup(s'.registry, s.conns[d].owner) != Some(d))
            <==> (step.Unregister? && step.c != d && s.conns[step.c].owner == s.conns[d].owner)
  {
    if step.Unregister? && step.c == d {
      assert !Served(Apply(s, step).conns[d].phase);
    }
  }

  ghost predicate AllLiveRegistered(s: State) {
    forall d: ConnId :: Live(s, d) ==> Lookup(s.registry, s.conns[d].owner) == Some(d)
  }

  /** A reader that unregisters an id while the registry names another connection for it, which is live. */
  ghost predicate TakesLiveOut(s: State, step: Step) {
    && step.Unregister? && step.c < |s.conns|
    && match Lookup(s.registry, s.conns[step.c].owner)
       case Some(d) => d != step.c && Live(s, d)
       case None => false
  }

  /** A step keeps every live connection registered exactly when it does not take one out. */
  lemma StepKeepsLiveExactly(s: State, step: Step)
    requires Enabled(s, step) && RegistrySound(s) && AllLiveRegistered(s)
    ensures AllLiveRegistered(Apply(s, step)) <==> !TakesLiveOut(s, step)
  {
    var s' := Apply(s, step);
    if TakesLiveOut(s, step) {
      var d := s.registry[s.conns[step.c].owner];
      assert Live(s', d);
    } else {
      forall d: ConnId | Live(s', d) ensures Lookup(s'.registry, s'.conns[d].owner) == Some(d) {
        StepKeepsLive(s, step, d);
      }
    }
  }

  lemma StepKeepsLive(s: State, step: Step, d: ConnId)
    requires Enabled(s, step) && RegistrySound(s) && AllLiveRegistered(s) && !TakesLiveOut(s, step)
    requires Live(Apply(s, step), d)
    ensures Lookup(Apply(s, step).registry, Apply(s, step).conns[d].owner) == Some(d)
  {
    if (step.AcceptRegister? || step.KeepRegister?) && step.c == d {
    } else {
      assert Live(s, d);
    }
  }

  ghost predicate LiveStayRegistered(s: State, steps: seq<Step>)
    decreases |steps|
  {
    && AllLiveRegistered(s)
    && (steps != [] ==> Enabled(s, steps[0]) && LiveStayRegistered(Apply(s, steps[0]), steps[1..]))
  }

  ghost predicate NoneTakenOut(s: State, steps: seq<Step>)
    decreases |steps|
  {
    steps != [] ==>
      Enabled(s, steps[0]) && !TakesLiveOut(s, steps[0]) && NoneTakenOut(Apply(s, steps[0]), steps[1..])
  }

  lemma {:induction false} LiveFromHere(s: State, steps: seq<Step>, s': State)
    requires Inv(s) && AllLiveRegistered(s) && Runs(s, steps, s')
    ensures LiveStayRegistered(s, steps) <==> NoneTakenOut(s, steps)
    decreases |steps|
  {
    if steps != [] {
      StepKeepsInv(s, steps[0]);
      StepKeepsLiveExactly(s, steps[0]);
      if !TakesLiveOut(s, steps[0]) {
        LiveFromHere(Apply(s, steps[0]), steps[1..], s');
      } else {
        assert !AllLiveRegistered(Apply(s, steps[0]));
      }
    }
  }

  /**
    Main result: every live connection is registered throughout a run exactly when no reader
    unregisters its id while the registry names another, live connection for it.
   */
  lemma LiveStayRegisteredExactly(steps: seq<Step>, s: State)
    requires Runs(Init, steps, s)
    ensures LiveStayRegistered(Init, steps) <==> NoneTakenOut(Init, steps)
  {
    LiveFromHere(Init, steps, s);
  }

  /** A reader that waits for the next message, on an open connection. */
  predicate Idle(s: State, c: ConnId) {
    At(s, c, Reading) && s.conns[c].open
  }

  /** One agent reconnects while the reader of its first connection is still on its way out. */
  function StaleReaderRun(id: AgentId): seq<Step> {
    [Accept(id), AcceptRegister(0), ReadFail(0), Accept(id), AcceptRegister(1), Unregister(0)]
  }

  /** The first connection, up to its read error. */
  lemma FirstConnectionFails(id: AgentId, s: State)
    requires id != "" && s == Init.(registry := map[id := 0], conns := [Conn(id, Failing, true, false)])
    ensures Runs(Init, StaleReaderRun(id)[..3], s)
  {
    var s1 := Init.(conns := [Conn(id, Accepting, true, false)]);
    var s2 := Init.(registry := map[id := 0], conns := [Conn(id, Reading, true, false)]);
    RunOneMore(Init, [], Init, Accept(id));
    assert Apply(Init, Accept(id)) == s1 && [] + [Accept(id)] == [Accept(id)];
    RunOneMore(Init, [Accept(id)], s1, AcceptRegister(0));
    assert Apply(s1, AcceptRegister(0)) == s2;
    assert [Accept(id)] + [AcceptRegister(0)] == [Accept(id), AcceptRegister(0)];
    RunOneMore(Init, [Accept(id), AcceptRegister(0)], s2, ReadFail(0));
    assert [Accept(id), AcceptRegister(0)] + [ReadFail(0)] == StaleReaderRun(id)[..3];
    assert Apply(s2, ReadFail(0)) == s;
  }

  lemma StaleReaderUnregistersNewer(id: AgentId)
    requires id != ""
    ensures exists s :: Runs(Init, StaleReaderRun(id), s) && Idle(s, 1) && s.conns[1].owner == id && id !in s.registry
  {
    var steps := StaleReaderRun(id);
    var s3 := Init.(registry := map[id := 0], conns := [Conn(id, Failing, true, false)]);
    FirstConnectionFails(id, s3);
    var s4 := Apply(s3, Accept(id));
    RunOneMore(Init, steps[..3], s3, Accept(id));
    assert steps[..3] + [Accept(id)] == steps[..4];
    var s5 := Apply(s4, AcceptRegister(1));
    RunOneMore(Init, steps[..4], s4, AcceptRegister(1));
    assert steps[..4] + [AcceptRegister(1)] == steps[..5];
    RunOneMore(Init, steps[..5], s5, Unregister(0));
    assert steps[..5] + [Unregister(0)] == steps;
  }
}

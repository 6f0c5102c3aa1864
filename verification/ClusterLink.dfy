/**
  The master's end of the gateway link (internal/master/ws/ws.go) when a link is replaced:
  the reader of the old one clears whatever connection is current on its way out.
 */
module ClusterLink {
  import opened Types
  import opened Cluster
  import opened ClusterCompletion
  import R = ClusterRuns
  import G = GatewayMachine

  ghost predicate Serves(s: State, link: G.LinkId) {
    link in s.master.readers && s.master.readers[link] == Serving
  }

  /** The master reads a link and has none to write to: everything it sends is dropped. */
  ghost predicate Mute(s: State) {
    s.master.link.None? && exists link :: Serves(s, link)
  }

  /** A reader leaves while another link is served. */
  ghost predicate LeavesAnother(s: State, step: Step) {
    step.MasterDetach? && exists link :: link != step.link && Serves(s, link)
  }

  /** A step makes the master mute exactly when a reader leaves while another link is served. */
  lemma StepMutesExactly(s: State, step: Step)
    requires Enabled(s, step) && !Mute(s)
    ensures Mute(Apply(s, step)) <==> LeavesAnother(s, step)
  {
    var s' := Apply(s, step);
    if step.MasterDetach? {
      forall link ensures Serves(s', link) <==> link != step.link && Serves(s, link) {
      }
    } else if !step.MasterAttach? {
      assert s'.master.link == s.master.link;
      assert forall link :: Serves(s', link) ==> Serves(s, link);
    }
  }

  lemma MuteSendsNothing(s: State, req: ReqId, ok: bool)
    requires Mute(s) && Enabled(s, Send(req, ok))
    ensures Apply(s, Send(req, ok)).net == s.net
    ensures |Apply(s, Send(req, ok)).log.lostBefore| == |s.log.lostBefore| + 1
  {
  }

  ghost predicate NeverMute(s: State, steps: seq<Step>)
    decreases |steps|
  {
    && !Mute(s)
    && (steps != [] ==> Enabled(s, steps[0]) && NeverMute(Apply(s, steps[0]), steps[1..]))
  }

  ghost predicate NoneLeavesAnother(s: State, steps: seq<Step>)
    decreases |steps|
  {
    steps != [] ==>
      Enabled(s, steps[0]) && !LeavesAnother(s, steps[0]) && NoneLeavesAnother(Apply(s, steps[0]), steps[1..])
  }

  lemma {:induction false} NeverMuteFromHere(s: State, steps: seq<Step>, s': State)
    requires !Mute(s) && Runs(s, steps, s')
    ensures NeverMute(s, steps) <==> NoneLeavesAnother(s, steps)
    decreases |steps|
  {
    if steps != [] {
      StepMutesExactly(s, steps[0]);
      if !LeavesAnother(s, steps[0]) {
        NeverMuteFromHere(Apply(s, steps[0]), steps[1..], s');
      }
    }
  }

  /** Main result: a served master can write throughout a run exactly when no reader leaves while another link is served. */
  lemma NeverMuteExactly(maxSize: nat, steps: seq<Step>, s: State)
    requires Runs(Init(maxSize), steps, s)
    ensures NeverMute(Init(maxSize), steps) <==> NoneLeavesAnother(Init(maxSize), steps)
  {
    NeverMuteFromHere(Init(maxSize), steps, s);
  }

  // ---------- a run that mutes the master ----------

  /** The gateway, with no agents, once its first link has broken. */
  const FirstLinkBroken := G.Init.(links := 1)

  lemma GatewayNext(maxSize: nat, g: G.State, step: G.Step)
    requires Reached(maxSize, Init(maxSize).(gw := g)) && Silent(step) && G.Enabled(g, step)
    ensures Reached(maxSize, Init(maxSize).(gw := G.Apply(g, step)))
  {
    ReachedNext(maxSize, Init(maxSize).(gw := g), Gateway(step));
  }

  lemma FirstLinkIsSet(maxSize: nat)
    ensures Reached(maxSize, Init(maxSize).(gw := G.Init.(masterConn := Some(0), phase := G.Resyncing(0, []), links := 1)))
  {
    assert Runs(Init(maxSize), [], Init(maxSize));
    GatewayNext(maxSize, G.Init, G.Dial);
    var g1 := G.Init.(phase := G.Dialed(0), links := 1);
    GatewayNext(maxSize, g1, G.SetMaster);
    var g2 := g1.(masterConn := Some(0), phase := G.Linked(0));
    assert G.Enumerates([], g2.registry);
    GatewayNext(maxSize, g2, G.Snapshot([]));
  }

  lemma FirstLinkBreaks(maxSize: nat)
    ensures Reached(maxSize, Init(maxSize).(gw := FirstLinkBroken))
  {
    FirstLinkIsSet(maxSize);
    var g := G.Init.(masterConn := Some(0), phase := G.Resyncing(0, []), links := 1);
    GatewayNext(maxSize, g, G.ResyncDone);
    GatewayNext(maxSize, g.(phase := G.Routing(0)), G.LinkFail);
    GatewayNext(maxSize, g.(phase := G.Breaking(0)), G.ClearMaster);
    GatewayNext(maxSize, g.(phase := G.Hanging(0), masterConn := None), G.CloseLink);
  }

  /** The gateway reconnects before the master has noticed that the first link is gone. */
  lemma StaleReaderMutes(maxSize: nat) returns (s: State)
    ensures Reached(maxSize, s) && Mute(s) && s.gw.phase == G.Dialed(1) && Serves(s, 1)
  {
    FirstLinkBreaks(maxSize);
    var s0 := Init(maxSize).(gw := FirstLinkBroken);
    ReachedNext(maxSize, s0, Gateway(G.Dial));
    var s1 := s0.(gw := G.Init.(phase := G.Dialed(1), links := 2));
    ReachedNext(maxSize, s1, MasterAttach(0));
    var s2 := Apply(s1, MasterAttach(0));
    ReachedNext(maxSize, s2, MasterAttach(1));
    var s3 := Apply(s2, MasterAttach(1));
    ReachedNext(maxSize, s3, MasterFail(0));
    var s4 := Apply(s3, MasterFail(0));
    ReachedNext(maxSize, s4, MasterDetach(0));
    s := Apply(s4, MasterDetach(0));
    assert Serves(s, 1);
  }
}

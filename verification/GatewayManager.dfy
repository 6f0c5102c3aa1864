/**
  The gateway's Manager object and its two loops (internal/gateway/proxy/proxy.go,
  cmd/gateway/main.go), each run without interference; GatewayMachine has the
  interleavings, with the same registry operations.
 */
module GatewayManager {
  import opened Types
  import opened Registry
  import opened Wire
  import StoreRuns

  /** What a reader passes on of one frame: a readable message, stamped with the id of the connection. */
  function StampedOne(agentID: AgentId, frame: Frame): seq<Message> {
    match frame
    case Malformed => []
    case Readable(msg) => [msg.(agentID := agentID)]
  }

  function Stamped(agentID: AgentId, inbox: seq<Frame>): seq<Message> {
    if inbox == [] then [] else Stamped(agentID, inbox[..|inbox| - 1]) + StampedOne(agentID, inbox[|inbox| - 1])
  }

  /** Whatever sender the messages claim, what is passed on names the connection's own id. */
  lemma {:induction false} StampedNamesSender(agentID: AgentId, inbox: seq<Frame>)
    ensures forall i :: 0 <= i < |Stamped(agentID, inbox)| ==> Stamped(agentID, inbox)[i].agentID == agentID
  {
    if inbox != [] {
      StampedNamesSender(agentID, inbox[..|inbox| - 1]);
    }
  }

  predicate IsRegister(frame: Frame) {
    frame.Readable? && frame.msg.kind == REGISTER
  }

  /** Registers go by their kind, whatever they carry. */
  lemma RegistersExactly(frame: Frame)
    ensures IsRegister(frame) <==> frame.Readable? && frame.msg.kind == "register"
  {
  }

  ghost predicate HasRegister(inbox: seq<Frame>) {
    exists i :: 0 <= i < |inbox| && IsRegister(inbox[i])
  }

  /** The registers sent after a reconnect. */
  function ResyncMessages(ids: seq<AgentId>): seq<Message> {
    seq(|ids|, i requires 0 <= i < |ids| => Message(REGISTER, ids[i], "", InfoData(StoreRuns.Bare(ids[i]))))
  }

  /** The readable messages addressed to id, in order. */
  function AddressedTo(id: AgentId, inbox: seq<Frame>): seq<Message> {
    if inbox == [] then []
    else
      var before := AddressedTo(id, inbox[..|inbox| - 1]);
      match inbox[|inbox| - 1]
      case Malformed => before
      case Readable(msg) => if msg.agentID == id then before + [msg] else before
  }

  function SentIfOpen(open: bool, sent: seq<Message>, more: seq<Message>): seq<Message> {
    if open then sent + more else sent
  }

  class Manager {
    var agents: map<AgentId, Conn>
    var masterConn: Conn?

    /** Agent connections serve one id each and are not the master's. */
    ghost predicate Valid()
      reads this
    {
      && (forall a, b :: a in agents && b in agents && a != b ==> agents[a] != agents[b])
      && (forall a :: a in agents ==> agents[a] != masterConn)
    }

    /** The master's connection, as a set that is empty when there is none. */
    ghost function Master(): set<Conn>
      reads this`masterConn
    {
      if masterConn == null then {} else {masterConn}
    }

    constructor ()
      ensures Valid() && agents == map[] && masterConn == null
    {
      agents := map[];
      masterConn := null;
    }

    method RegisterAgent(id: AgentId, conn: Conn)
      requires Valid() && conn != masterConn
      requires forall a :: a in agents && a != id ==> agents[a] != conn
      modifies this`agents, agents.Values`open
      ensures Valid()
      ensures agents == Registered(old(agents), id, conn)
      ensures forall c :: c in old(agents).Values ==>
        c.open == (old(c.open) && Displaced(old(agents), id, conn) != Some(c))
    {
      if id in agents && agents[id] != conn {
        agents[id].Close();
      }
      agents := agents[id := conn];
    }

    method UnregisterAgent(id: AgentId)
      requires Valid()
      modifies this`agents
      ensures Valid() && agents == Unregistered(old(agents), id)
    {
      agents := agents - {id};
    }

    method GetAllAgentIDs() returns (ids: seq<AgentId>)
      ensures forall id :: id in ids <==> id in agents
      ensures forall i, j :: 0 <= i < j < |ids| ==> ids[i] != ids[j]
    {
      ids := [];
      var todo := agents.Keys;
      while todo != {}
        invariant todo <= agents.Keys
        invariant forall id :: id in ids <==> id in agents && id !in todo
        invariant forall i, j :: 0 <= i < j < |ids| ==> ids[i] != ids[j]
        decreases todo
      {
        var id :| id in todo;
        todo := todo - {id};
        ids := ids + [id];
      }
    }

    method SetMasterConn(conn: Conn)
      requires Valid() && conn !in agents.Values
      modifies this`masterConn, Master()`open
      ensures Valid() && masterConn == conn
      ensures old(masterConn) != null ==> !old(masterConn).open
    {
      if masterConn != null {
        masterConn.Close();
      }
      masterConn := conn;
    }

    method ClearMasterConn()
      requires Valid()
      modifies this`masterConn
      ensures Valid() && masterConn == null
    {
      masterConn := null;
    }

    method SendToAgent(agentID: AgentId, msg: Message) returns (ok: bool)
      requires Valid()
      modifies agents.Values`sent
      ensures ok == (agentID in agents ==> agents[agentID].open)
      ensures forall a :: a in agents ==>
        agents[a].sent == SentIfOpen(agents[a].open && a == agentID, old(agents[a].sent), [msg])
    {
      if agentID !in agents {
        return true;
      }
      ok := agents[agentID].WriteMessage(msg);
    }

    method SendToMaster(msg: Message) returns (ok: bool)
      requires Valid()
      modifies Master()`sent
      ensures ok == (masterConn != null ==> masterConn.open)
      ensures masterConn != null ==> masterConn.sent == SentIfOpen(masterConn.open, old(masterConn.sent), [msg])
    {
      if masterConn == null {
        return true;
      }
      ok := masterConn.WriteMessage(msg);
    }

    /** The body of the reader loop. */
    method Relay(agentID: AgentId, conn: Conn, frame: Frame)
      requires Valid() && conn != masterConn
      requires forall a :: a in agents && a != agentID ==> agents[a] != conn
      modifies this`agents, agents.Values`open, Master()`sent
      ensures Valid()
      ensures agents == if IsRegister(frame) then Registered(old(agents), agentID, conn) else old(agents)
      ensures forall c :: c in old(agents).Values ==>
        c.open == (old(c.open) && !(IsRegister(frame) && Displaced(old(agents), agentID, conn) == Some(c)))
      ensures masterConn != null ==>
        masterConn.sent == SentIfOpen(masterConn.open, old(masterConn.sent), StampedOne(agentID, frame))
    {
      if frame.Malformed? {
        return;
      }
      var msg := frame.msg.(agentID := agentID);
      if msg.kind == REGISTER {
        RegisterAgent(agentID, conn);
      }
      var _ := SendToMaster(msg);
    }

    /** The reader loop of one agent connection, over the messages that arrive before the read error. */
    method RelayAll(agentID: AgentId, conn: Conn, inbox: seq<Frame>)
      requires Valid() && conn != masterConn
      requires forall a :: a in agents && a != agentID ==> agents[a] != conn
      modifies this`agents, agents.Values`open, conn`open, Master()`sent
      ensures Valid() && conn.open == old(conn.open)
      ensures agents == if HasRegister(inbox) then Registered(old(agents), agentID, conn) else old(agents)
      ensures forall c :: c in old(agents).Values ==>
        c.open == (old(c.open) && !(HasRegister(inbox) && Displaced(old(agents), agentID, conn) == Some(c)))
      ensures masterConn != null ==>
        masterConn.sent == SentIfOpen(masterConn.open, old(masterConn.sent), Stamped(agentID, inbox))
    {
      var i := 0;
      while i < |inbox|
        invariant 0 <= i <= |inbox|
        invariant Valid() && conn.open == old(conn.open)
        invariant agents == if HasRegister(inbox[..i]) then Registered(old(agents), agentID, conn) else old(agents)
        invariant forall c :: c in old(agents).Values ==>
          c.open == (old(c.open) && !(HasRegister(inbox[..i]) && Displaced(old(agents), agentID, conn) == Some(c)))
        invariant masterConn != null ==>
          masterConn.sent == SentIfOpen(masterConn.open, old(masterConn.sent), Stamped(agentID, inbox[..i]))
      {
        assert inbox[..i + 1][..i] == inbox[..i];
        RegisterSeenSoFar(inbox, i);
        Relay(agentID, conn, inbox[i]);
        i := i + 1;
      }
      assert inbox[..|inbox|] == inbox;
    }

    /** The reader of one agent connection: its loop, then the deferred unregister and close. */
    method ForwardAgentToMaster(agentID: AgentId, conn: Conn, inbox: seq<Frame>)
      requires Valid() && conn != masterConn
      requires forall a :: a in agents && a != agentID ==> agents[a] != conn
      modifies this`agents, agents.Values`open, conn`open, Master()`sent
      ensures Valid() && !conn.open
      ensures agents == Unregistered(old(agents), agentID)
      ensures forall c :: c in old(agents).Values && c != conn ==>
        c.open == (old(c.open) && !(HasRegister(inbox) && Lookup(old(agents), agentID) == Some(c)))
      ensures masterConn != null ==>
        masterConn.sent == SentIfOpen(masterConn.open, old(masterConn.sent), Stamped(agentID, inbox))
    {
      RelayAll(agentID, conn, inbox);
      UnregisterAgent(agentID);
      conn.Close();
    }

    /** The first loop of connectToMaster: one register for each connected agent. */
    method Resync() returns (ghost ids: seq<AgentId>)
      requires Valid()
      modifies Master()`sent
      ensures forall id :: id in ids <==> id in agents
      ensures forall i, j :: 0 <= i < j < |ids| ==> ids[i] != ids[j]
      ensures masterConn != null ==>
        masterConn.sent == SentIfOpen(masterConn.open, old(masterConn.sent), ResyncMessages(ids))
    {
      var all := GetAllAgentIDs();
      ids := all;
      var i := 0;
      while i < |all|
        invariant 0 <= i <= |all|
        invariant masterConn != null ==>
          masterConn.sent == SentIfOpen(masterConn.open, old(masterConn.sent), ResyncMessages(all[..i]))
      {
        var msg := Message(REGISTER, all[i], "", InfoData(StoreRuns.Bare(all[i])));
        assert ResyncMessages(all[..i + 1]) == ResyncMessages(all[..i]) + [msg];
        var _ := SendToMaster(msg);
        i := i + 1;
      }
      assert all[..|all|] == all;
    }

    /** The second loop of connectToMaster: each message goes to the agent it names. */
    method RouteToAgents(inbox: seq<Frame>)
      requires Valid()
      modifies agents.Values`sent
      ensures forall a :: a in agents ==>
        agents[a].sent == SentIfOpen(agents[a].open && a != "", old(agents[a].sent), AddressedTo(a, inbox))
    {
      var i := 0;
      while i < |inbox|
        invariant 0 <= i <= |inbox|
        invariant forall a :: a in agents ==>
          agents[a].sent == SentIfOpen(agents[a].open && a != "", old(agents[a].sent), AddressedTo(a, inbox[..i]))
      {
        assert inbox[..i + 1][..i] == inbox[..i];
        match inbox[i] {
          case Malformed =>
          case Readable(msg) =>
            if msg.agentID != "" {
              var _ := SendToAgent(msg.agentID, msg);
            }
        }
        i := i + 1;
      }
      assert inbox[..|inbox|] == inbox;
    }

    /** One round of connectToMaster over a fresh connection, up to the read error after inbox. */
    method ServeMaster(conn: Conn, inbox: seq<Frame>) returns (ghost ids: seq<AgentId>)
      requires Valid() && conn !in agents.Values && conn != masterConn
      modifies this`masterConn, Master()`open, conn, agents.Values`sent
      ensures Valid() && agents == old(agents) && masterConn == null && !conn.open
      ensures forall id :: id in ids <==> id in agents
      ensures forall i, j :: 0 <= i < j < |ids| ==> ids[i] != ids[j]
      ensures conn.sent == SentIfOpen(old(conn.open), old(conn.sent), ResyncMessages(ids))
      ensures forall a :: a in agents ==>
        agents[a].sent == SentIfOpen(agents[a].open && a != "", old(agents[a].sent), AddressedTo(a, inbox))
    {
      SetMasterConn(conn);
      ids := Resync();
      RouteToAgents(inbox);
      ClearMasterConn();
      conn.Close();
    }
  }

  // ---------- what a loop passes on, by position and by number ----------

  /** at lists the positions of inbox that hold the elements of picked, in order. */
  ghost predicate Picks(at: seq<nat>, inbox: seq<Frame>, picked: seq<Message>) {
    && |at| == |picked|
    && (forall i, j :: 0 <= i < j < |at| ==> at[i] < at[j])
    && (forall i :: 0 <= i < |at| ==> at[i] < |inbox| && inbox[at[i]] == Readable(picked[i]))
  }

  lemma PickOneMore(at: seq<nat>, inbox: seq<Frame>, picked: seq<Message>, last: Message)
    requires inbox != [] && Picks(at, inbox[..|inbox| - 1], picked) && inbox[|inbox| - 1] == Readable(last)
    ensures Picks(at + [|inbox| - 1], inbox, picked + [last])
  {
  }

  lemma PicksInLonger(at: seq<nat>, inbox: seq<Frame>, picked: seq<Message>)
    requires inbox != [] && Picks(at, inbox[..|inbox| - 1], picked)
    ensures Picks(at, inbox, picked)
  {
  }

  /**
    Main result: to an agent go exactly the readable messages that name it, each from its own
    position of the inbox, in the order of the inbox.
   */
  lemma {:induction false} AddressedInOrder(id: AgentId, inbox: seq<Frame>) returns (at: seq<nat>)
    ensures Picks(at, inbox, AddressedTo(id, inbox))
    ensures forall k :: 0 <= k < |inbox| ==> (k in at <==> inbox[k].Readable? && inbox[k].msg.agentID == id)
  {
    at := [];
    if inbox != [] {
      var front, last := inbox[..|inbox| - 1], inbox[|inbox| - 1];
      at := AddressedInOrder(id, front);
      var before := at;
      assert forall k :: 0 <= k < |front| ==> front[k] == inbox[k];
      if last.Readable? && last.msg.agentID == id {
        PickOneMore(at, inbox, AddressedTo(id, front), last.msg);
        at := before + [|inbox| - 1];
      } else {
        PicksInLonger(at, inbox, AddressedTo(id, front));
      }
    }
  }

  lemma CountOneMore<T>(s: seq<T>, last: T, x: T)
    ensures multiset(s + [last])[x] == multiset(s)[x] + (if last == x then 1 else 0)
  {
  }

  /** As often as a message for id comes in, it goes out to id, and to nobody else. */
  lemma {:induction false} AddressedAsOften(id: AgentId, inbox: seq<Frame>, msg: Message)
    ensures multiset(AddressedTo(id, inbox))[msg] == if msg.agentID == id then multiset(inbox)[Readable(msg)] else 0
  {
    if inbox != [] {
      var front, last := inbox[..|inbox| - 1], inbox[|inbox| - 1];
      AddressedAsOften(id, front, msg);
      assert inbox == front + [last];
      CountOneMore(front, last, Readable(msg));
      if last.Readable? {
        CountOneMore(AddressedTo(id, front), last.msg, msg);
      }
    }
  }

  /**
    Main result: the master gets exactly the readable messages of an agent's connection, each
    from its own position, in order, and with nothing but the sender rewritten.
   */
  lemma {:induction false} StampedInOrder(agentID: AgentId, inbox: seq<Frame>) returns (at: seq<nat>, read: seq<Message>)
    ensures Picks(at, inbox, read)
    ensures forall k :: 0 <= k < |inbox| ==> (k in at <==> inbox[k].Readable?)
    ensures |Stamped(agentID, inbox)| == |read|
    ensures forall i :: 0 <= i < |read| ==> Stamped(agentID, inbox)[i] == read[i].(agentID := agentID)
  {
    at, read := [], [];
    if inbox != [] {
      var front, last := inbox[..|inbox| - 1], inbox[|inbox| - 1];
      at, read := StampedInOrder(agentID, front);
      assert forall k :: 0 <= k < |front| ==> front[k] == inbox[k];
      if last.Readable? {
        PickOneMore(at, inbox, read, last.msg);
        at, read := at + [|inbox| - 1], read + [last.msg];
      } else {
        PicksInLonger(at, inbox, read);
      }
    }
  }

  lemma RegisterSeenSoFar(inbox: seq<Frame>, i: nat)
    requires i < |inbox|
    ensures HasRegister(inbox[..i + 1]) <==> HasRegister(inbox[..i]) || IsRegister(inbox[i])
  {
    if HasRegister(inbox[..i]) {
      var k :| 0 <= k < i && IsRegister(inbox[..i][k]);
      assert IsRegister(inbox[..i + 1][k]);
    }
    if IsRegister(inbox[i]) {
      assert IsRegister(inbox[..i + 1][i]);
    }
    if HasRegister(inbox[..i + 1]) {
      var k :| 0 <= k < i + 1 && IsRegister(inbox[..i + 1][k]);
      if k < i {
        assert IsRegister(inbox[..i][k]);
      }
    }
  }
}

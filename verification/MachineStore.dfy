/**
  The master's inventory of machines (internal/master/store/store.go).

  Merged, Measured and Swept say what one call does to the record of a machine. Class
  Store keeps the records as mutable objects, as the original keeps pointers to them.
  The lemmas are about any sequence of calls.
 */
module MachineStore {
  import opened Types

  datatype Metrics = Metrics(
    cpuPercent: real, memPercent: real, memUsedMB: nat, diskPercent: real,
    load1: real, load5: real, load15: real, netRxBytes: nat, netTxBytes: nat,
    tcpConns: int, processCount: int, timestamp: int)

  datatype AgentInfo = AgentInfo(
    agentID: AgentId, hostname: string, os: string,
    distributorID: string, description: string, release: string, codename: string,
    publicIP: string, location: string,
    cpuModel: string, cpuCores: int, memoryMB: nat, diskGB: nat, diskUsed: nat,
    uptime: nat, status: string, lastSeen: int,
    tags: seq<string>, group: string, metrics: Option<Metrics>)

  const ONLINE := "online"
  const OFFLINE := "offline"

  function Text(old_: string, new_: string): string {
    if new_ != "" then new_ else old_
  }

  function Number(old_: int, new_: int): int {
    if new_ > 0 then new_ else old_
  }

  /** The record after a report: every descriptive field that the report fills in. */
  function Merged(existing: AgentInfo, info: AgentInfo): AgentInfo {
    existing.(
      hostname := Text(existing.hostname, info.hostname),
      os := Text(existing.os, info.os),
      distributorID := Text(existing.distributorID, info.distributorID),
      description := Text(existing.description, info.description),
      release := Text(existing.release, info.release),
      codename := Text(existing.codename, info.codename),
      publicIP := Text(existing.publicIP, info.publicIP),
      location := Text(existing.location, info.location),
      cpuModel := Text(existing.cpuModel, info.cpuModel),
      cpuCores := Number(existing.cpuCores, info.cpuCores),
      memoryMB := Number(existing.memoryMB, info.memoryMB),
      diskGB := Number(existing.diskGB, info.diskGB),
      diskUsed := Number(existing.diskUsed, info.diskUsed),
      uptime := Number(existing.uptime, info.uptime),
      lastSeen := info.lastSeen,
      status := info.status)
  }

  /** UpdateMachine on the record of one machine. */
  function Reported(record: Option<AgentInfo>, info: AgentInfo, now: int): AgentInfo {
    var stamped := info.(lastSeen := now, status := ONLINE);
    match record
    case Some(existing) => Merged(existing, stamped)
    case None => stamped
  }

  function Measured(record: AgentInfo, metrics: Metrics, now: int): AgentInfo {
    record.(metrics := Some(metrics), lastSeen := now, status := ONLINE)
  }

  function SweptStatus(lastSeen: int, status: string, cutoff: int): string {
    if lastSeen < cutoff && status == ONLINE then OFFLINE else status
  }

  function SweptRecord(record: AgentInfo, cutoff: int): AgentInfo {
    record.(status := SweptStatus(record.lastSeen, record.status, cutoff))
  }

  function Find(table: map<AgentId, AgentInfo>, id: AgentId): Option<AgentInfo> {
    if id in table then Some(table[id]) else None
  }

  predicate IsOnline(info: AgentInfo) {
    info.status == ONLINE
  }

  /** result holds the records with property keep, each once; ids are their keys. */
  ghost predicate Lists(ids: seq<AgentId>, result: seq<AgentInfo>, table: map<AgentId, AgentInfo>, keep: AgentInfo -> bool) {
    && |ids| == |result|
    && (forall i :: 0 <= i < |ids| ==> ids[i] in table && table[ids[i]] == result[i] && keep(result[i]))
    && (forall i, j :: 0 <= i < j < |ids| ==> ids[i] != ids[j])
    && (forall a :: a in table && keep(table[a]) ==> a in ids)
  }

  /** What is listed is exactly what is kept. */
  lemma ListsExactly(ids: seq<AgentId>, result: seq<AgentInfo>, table: map<AgentId, AgentInfo>, keep: AgentInfo -> bool)
    requires Lists(ids, result, table, keep)
    ensures forall info :: info in result <==> info in table.Values && keep(info)
  {
    forall info | info in table.Values && keep(info) ensures info in result {
      var a :| a in table && table[a] == info;
      var i :| 0 <= i < |ids| && ids[i] == a;
      assert result[i] == info;
    }
  }

  // ---------- the mutable object ----------

  /** A record that the store points to and changes field by field. */
  class Machine {
    var agentID: AgentId
    var hostname: string
    var os: string
    var distributorID: string
    var description: string
    var release: string
    var codename: string
    var publicIP: string
    var location: string
    var cpuModel: string
    var cpuCores: int
    var memoryMB: nat
    var diskGB: nat
    var diskUsed: nat
    var uptime: nat
    var status: string
    var lastSeen: int
    var tags: seq<string>
    var group: string
    var metrics: Option<Metrics>

    constructor (info: AgentInfo)
      ensures View() == info
    {
      agentID, hostname, os := info.agentID, info.hostname, info.os;
      distributorID, description, release, codename := info.distributorID, info.description, info.release, info.codename;
      publicIP, location, cpuModel, cpuCores := info.publicIP, info.location, info.cpuModel, info.cpuCores;
      memoryMB, diskGB, diskUsed, uptime := info.memoryMB, info.diskGB, info.diskUsed, info.uptime;
      status, lastSeen, tags, group, metrics := info.status, info.lastSeen, info.tags, info.group, info.metrics;
    }

    function View(): AgentInfo
      reads this
    {
      AgentInfo(agentID, hostname, os, distributorID, description, release, codename, publicIP, location,
                cpuModel, cpuCores, memoryMB, diskGB, diskUsed, uptime, status, lastSeen, tags, group, metrics)
    }

    /** The branch of UpdateMetrics for a known machine. */
    method Measure(sample: Metrics, now: int)
      modifies this`metrics, this`lastSeen, this`status
      ensures View() == Measured(old(View()), sample, now)
    {
      metrics := Some(sample);
      lastSeen := now;
      status := ONLINE;
    }

    /** The loop body of CleanupStale. */
    method Sweep(cutoff: int)
      modifies this`status
      ensures status == SweptStatus(lastSeen, old(status), cutoff)
    {
      if lastSeen < cutoff && status == ONLINE {
        status := OFFLINE;
      }
    }

    method MergeSystem(info: AgentInfo)
      modifies this`hostname, this`os, this`distributorID, this`description, this`release, this`codename
      ensures hostname == Text(old(hostname), info.hostname) && os == Text(old(os), info.os)
      ensures distributorID == Text(old(distributorID), info.distributorID)
      ensures description == Text(old(description), info.description)
      ensures release == Text(old(release), info.release) && codename == Text(old(codename), info.codename)
    {
      if info.hostname != "" { hostname := info.hostname; }
      if info.os != "" { os := info.os; }
      if info.distributorID != "" { distributorID := info.distributorID; }
      if info.description != "" { description := info.description; }
      if info.release != "" { release := info.release; }
      if info.codename != "" { codename := info.codename; }
    }

    method MergeHardware(info: AgentInfo)
      modifies this`publicIP, this`location, this`cpuModel, this`cpuCores
      ensures publicIP == Text(old(publicIP), info.publicIP) && location == Text(old(location), info.location)
      ensures cpuModel == Text(old(cpuModel), info.cpuModel) && cpuCores == Number(old(cpuCores), info.cpuCores)
    {
      if info.publicIP != "" { publicIP := info.publicIP; }
      if info.location != "" { location := info.location; }
      if info.cpuModel != "" { cpuModel := info.cpuModel; }
      if info.cpuCores > 0 { cpuCores := info.cpuCores; }
    }

    method MergeUsage(info: AgentInfo)
      modifies this`memoryMB, this`diskGB, this`diskUsed, this`uptime
      ensures memoryMB == Number(old(memoryMB), info.memoryMB) && diskGB == Number(old(diskGB), info.diskGB)
      ensures diskUsed == Number(old(diskUsed), info.diskUsed) && uptime == Number(old(uptime), info.uptime)
    {
      if info.memoryMB > 0 { memoryMB := info.memoryMB; }
      if info.diskGB > 0 { diskGB := info.diskGB; }
      if info.diskUsed > 0 { diskUsed := info.diskUsed; }
      if info.uptime > 0 { uptime := info.uptime; }
    }

    /** The merge branch of UpdateMachine, in three groups of fields. */
    method MergeFrom(info: AgentInfo)
      modifies this
      ensures View() == Merged(old(View()), info)
    {
      MergeSystem(info);
      MergeHardware(info);
      MergeUsage(info);
      lastSeen := info.lastSeen;
      status := info.status;
    }
  }

  class Store {
    var machines: map<AgentId, Machine>

    ghost predicate Valid()
      reads this
    {
      forall a, b :: a in machines && b in machines && a != b ==> machines[a] != machines[b]
    }

    ghost function Table(): map<AgentId, AgentInfo>
      reads this, machines.Values
    {
      map a | a in machines :: machines[a].View()
    }

    constructor ()
      ensures Valid() && Table() == map[]
    {
      machines := map[];
    }

    method UpdateMachine(info: AgentInfo, now: int)
      requires Valid()
      modifies this, machines.Values
      ensures Valid() && fresh(machines.Values - old(machines.Values))
      ensures Table() == old(Table())[info.agentID := Reported(Find(old(Table()), info.agentID), info, now)]
    {
      var stamped := info.(lastSeen := now, status := ONLINE);
      if info.agentID in machines {
        machines[info.agentID].MergeFrom(stamped);
      } else {
        var machine := new Machine(stamped);
        machines := machines[info.agentID := machine];
      }
    }

    method SetOffline(agentID: AgentId)
      requires Valid()
      modifies machines.Values
      ensures Valid()
      ensures Table() == if agentID in old(Table()) then old(Table())[agentID := old(Table())[agentID].(status := OFFLINE)] else old(Table())
    {
      if agentID in machines {
        machines[agentID].status := OFFLINE;
      }
    }

    method GetMachine(id: AgentId) returns (found: Option<AgentInfo>)
      ensures found == Find(Table(), id)
    {
      if id in machines {
        return Some(machines[id].View());
      }
      return None;
    }

    method GetOnlineMachines() returns (result: seq<AgentInfo>, ghost ids: seq<AgentId>)
      ensures Lists(ids, result, Table(), IsOnline)
      ensures forall info :: info in result <==> info in Table().Values && info.status == ONLINE
    {
      result, ids := [], [];
      var todo := machines.Keys;
      while todo != {}
        invariant todo <= machines.Keys
        invariant Lists(ids, result, map a | a in machines && a !in todo :: machines[a].View(), IsOnline)
        decreases todo
      {
        var a :| a in todo;
        todo := todo - {a};
        if machines[a].status == ONLINE {
          result, ids := result + [machines[a].View()], ids + [a];
        }
      }
      assert Table() == map a | a in machines && a !in todo :: machines[a].View();
      ListsExactly(ids, result, Table(), IsOnline);
    }

    method GetMachinesByGroup(group: string) returns (result: seq<AgentInfo>, ghost ids: seq<AgentId>)
      ensures Lists(ids, result, Table(), (info: AgentInfo) => info.group == group)
      ensures forall info :: info in result <==> info in Table().Values && info.group == group
    {
      result, ids := [], [];
      var todo := machines.Keys;
      while todo != {}
        invariant todo <= machines.Keys
        invariant Lists(ids, result, map a | a in machines && a !in todo :: machines[a].View(), (info: AgentInfo) => info.group == group)
        decreases todo
      {
        var a :| a in todo;
        todo := todo - {a};
        if machines[a].group == group {
          result, ids := result + [machines[a].View()], ids + [a];
        }
      }
      assert Table() == map a | a in machines && a !in todo :: machines[a].View();
      ListsExactly(ids, result, Table(), (info: AgentInfo) => info.group == group);
    }

    method CleanupStale(threshold: int, now: int)
      requires Valid()
      modifies machines.Values`status
      ensures Valid()
      ensures Table() == SweptTable(old(Table()), now - threshold)
    {
      var cutoff := now - threshold;
      var todo := machines.Keys;
      while todo != {}
        invariant todo <= machines.Keys
        invariant forall a :: a in machines ==>
          machines[a].status == if a in todo then old(machines[a].status) else SweptStatus(machines[a].lastSeen, old(machines[a].status), cutoff)
        decreases todo
      {
        var a :| a in todo;
        todo := todo - {a};
        machines[a].Sweep(cutoff);
      }
    }

    method SetTags(agentID: AgentId, tags: seq<string>)
      requires Valid()
      modifies machines.Values
      ensures Valid()
      ensures Table() == if agentID in old(Table()) then old(Table())[agentID := old(Table())[agentID].(tags := tags)] else old(Table())
    {
      if agentID in machines {
        machines[agentID].tags := tags;
      }
    }

    method SetGroup(agentID: AgentId, group: string)
      requires Valid()
      modifies machines.Values
      ensures Valid()
      ensures Table() == if agentID in old(Table()) then old(Table())[agentID := old(Table())[agentID].(group := group)] else old(Table())
    {
      if agentID in machines {
        machines[agentID].group := group;
      }
    }

    method UpdateMetrics(agentID: AgentId, metrics: Metrics, now: int)
      requires Valid()
      modifies machines.Values
      ensures Valid()
      ensures Table() == if agentID in old(Table()) then old(Table())[agentID := Measured(old(Table())[agentID], metrics, now)] else old(Table())
    {
      if agentID in machines {
        machines[agentID].Measure(metrics, now);
        assert unchanged(machines.Values - {machines[agentID]});
      }
    }
  }

  function SweptTable(table: map<AgentId, AgentInfo>, cutoff: int): map<AgentId, AgentInfo> {
    map a | a in table :: SweptRecord(table[a], cutoff)
  }
}

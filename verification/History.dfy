/**
  The bounded execution history (internal/master/store/history.go).

  The functions Added, Updated and Page say what one call does to the slice of
  records; class ExecHistory is the mutable object and its methods are proved
  against them. The lemmas then compare any sequence of calls with an unbounded
  log and show that the order in which answers arrive does not matter.
 */
module History {
  import opened Types

  datatype ExecResult = ExecResult(agentID: AgentId, exitCode: int, output: string, error: string, done: bool)

  datatype ExecRecord = ExecRecord(
    id: ReqId,
    script: string,
    scriptBrief: string,
    timeout: int,
    agentIDs: seq<AgentId>,
    results: map<AgentId, ExecResult>,
    status: string,
    startedAt: int,
    finishedAt: Option<int>,
    user: string)

  const DEFAULT_SIZE := 500
  const BRIEF_LENGTH := 100

  function WithBrief(record: ExecRecord): ExecRecord {
    if record.scriptBrief == "" && |record.script| > BRIEF_LENGTH
    then record.(scriptBrief := record.script[..BRIEF_LENGTH] + "...")
    else record
  }

  function Added(records: seq<ExecRecord>, maxSize: nat, record: ExecRecord): seq<ExecRecord> {
    Newest(records + [WithBrief(record)], maxSize)
  }

  ghost predicate AllDone(results: map<AgentId, ExecResult>) {
    forall a :: a in results ==> results[a].done
  }

  /** The record once one more result has been filed at time now. */
  ghost function Answered(record: ExecRecord, result: ExecResult, now: int): ExecRecord {
    var filed := record.(results := record.results[result.agentID := result]);
    if AllDone(filed.results) then filed.(finishedAt := Some(now), status := "completed") else filed
  }

  /** Position of the first record with this id, or |records| when there is none. */
  function IndexOf(records: seq<ExecRecord>, id: ReqId): (i: nat)
    ensures i <= |records|
    ensures i < |records| ==> records[i].id == id
    ensures forall k :: 0 <= k < i ==> records[k].id != id
  {
    if records == [] then 0
    else if records[0].id == id then 0
    else 1 + IndexOf(records[1..], id)
  }

  ghost function Updated(records: seq<ExecRecord>, id: ReqId, result: ExecResult, now: int): seq<ExecRecord> {
    var i := IndexOf(records, id);
    if i < |records| then records[i := Answered(records[i], result, now)] else records
  }

  /** At most limit records, newest first, after skipping the offset newest ones. */
  function Page(records: seq<ExecRecord>, limit: nat, offset: nat): seq<ExecRecord> {
    if offset >= |records| then []
    else Reversed(records)[offset..Min(offset + limit, |records|)]
  }

  // ---------- the mutable object ----------

  class ExecHistory {
    var records: seq<ExecRecord>
    const maxSize: nat

    ghost predicate Valid()
      reads this
    {
      0 < maxSize && |records| <= maxSize
    }

    constructor (size: int)
      ensures Valid() && records == []
      ensures maxSize == if size <= 0 then 500 else size
    {
      maxSize := if size <= 0 then DEFAULT_SIZE else size;
      records := [];
    }

    method Add(record: ExecRecord)
      requires Valid()
      modifies this
      ensures Valid()
      ensures records == Added(old(records), maxSize, record)
    {
      var rec := record;
      if rec.scriptBrief == "" && |rec.script| > BRIEF_LENGTH {
        rec := rec.(scriptBrief := rec.script[..BRIEF_LENGTH] + "...");
      }
      records := records + [rec];
      if |records| > maxSize {
        records := records[|records| - maxSize..];
      }
    }

    method UpdateResult(id: ReqId, result: ExecResult, now: int)
      requires Valid()
      modifies this
      ensures Valid()
      ensures records == Updated(old(records), id, result, now)
    {
      var i := 0;
      while i < |records|
        invariant 0 <= i <= |records|
        invariant records == old(records)
        invariant forall k :: 0 <= k < i ==> records[k].id != id
      {
        if records[i].id == id {
          FirstIndex(records, id, i);
          records := records[i := records[i].(results := records[i].results[result.agentID := result])];
          var allDone := EveryDone(records[i].results);
          if allDone {
            records := records[i := records[i].(finishedAt := Some(now), status := "completed")];
          }
          return;
        }
        i := i + 1;
      }
    }

    method Get(id: ReqId) returns (found: Option<ExecRecord>)
      ensures found.Some? <==> exists k :: 0 <= k < |records| && records[k].id == id
      ensures found.Some? ==> IndexOf(records, id) < |records| && found.value == records[IndexOf(records, id)]
    {
      var i := 0;
      while i < |records|
        invariant 0 <= i <= |records|
        invariant forall k :: 0 <= k < i ==> records[k].id != id
      {
        if records[i].id == id {
          FirstIndex(records, id, i);
          return Some(records[i]);
        }
        i := i + 1;
      }
      return None;
    }

    method List(limit: nat, offset: nat) returns (result: seq<ExecRecord>)
      ensures result == Page(records, limit, offset)
    {
      var total := |records|;
      if offset >= total {
        return [];
      }
      result := [];
      var i := total - 1 - offset;
      while i >= 0 && |result| < limit
        invariant -1 <= i < total
        invariant |result| == total - 1 - offset - i <= limit
        invariant result == Reversed(records)[offset..offset + |result|]
      {
        result := result + [records[i]];
        i := i - 1;
      }
    }
  }

  /** The inner loop of UpdateResult: ranges over the map until a pending entry turns up. */
  method EveryDone(results: map<AgentId, ExecResult>) returns (allDone: bool)
    ensures allDone <==> AllDone(results)
  {
    var todo := results.Keys;
    while todo != {}
      invariant todo <= results.Keys
      invariant forall a :: a in results && a !in todo ==> results[a].done
      decreases todo
    {
      var a :| a in todo;
      if !results[a].done {
        return false;
      }
      todo := todo - {a};
    }
    return true;
  }

  lemma FirstIndex(records: seq<ExecRecord>, id: ReqId, i: nat)
    requires i < |records| && records[i].id == id
    requires forall k :: 0 <= k < i ==> records[k].id != id
    ensures IndexOf(records, id) == i
  {
  }

  // ---------- what one call does, record by record ----------

  /** The newest records stay, the new one last, and only what does not fit goes. */
  lemma AddKeepsNewest(records: seq<ExecRecord>, maxSize: nat, record: ExecRecord)
    requires maxSize >= 1
    ensures var after := Added(records, maxSize, record);
            && |after| == Min(|records| + 1, maxSize)
            && after[|after| - 1].id == record.id
            && forall k :: 0 <= k < |after| - 1 ==> after[k] == records[|records| + 1 - |after| + k]
  {
  }

  /** Only the brief changes: to the first 100 bytes and dots, for a longer script that has none. */
  lemma BriefIsPreview(record: ExecRecord)
    ensures var brief := WithBrief(record).scriptBrief;
            && WithBrief(record) == record.(scriptBrief := brief)
            && (record.scriptBrief != "" || |record.script| <= 100 ==> brief == record.scriptBrief)
            && (record.scriptBrief == "" && |record.script| > 100 ==>
                  |brief| == 103 && brief[..100] == record.script[..100] && brief[100..] == "...")
  {
    if record.scriptBrief == "" && |record.script| > BRIEF_LENGTH {
      assert (record.script[..BRIEF_LENGTH] + "...")[BRIEF_LENGTH..] == "...";
    }
  }

  /** An answer touches the record of its request only, and of that nothing but the agent's entry, status and finish time. */
  lemma UpdateTouchesOne(records: seq<ExecRecord>, id: ReqId, result: ExecResult, now: int, k: nat)
    requires DistinctIds(records) && k < |records|
    ensures var after := Updated(records, id, result, now);
            && |after| == |records|
            && (records[k].id != id ==> after[k] == records[k])
            && (records[k].id == id ==>
                  after[k].results == records[k].results[result.agentID := result]
                  && after[k] == records[k].(results := after[k].results, status := after[k].status, finishedAt := after[k].finishedAt))
  {
    if records[k].id == id {
      FirstIndex(records, id, k);
    }
  }

  // ---------- paging ----------

  /** The pages a client gets that keeps asking until a page starts past the end. */
  function AllPages(records: seq<ExecRecord>, limit: nat, offset: nat): seq<ExecRecord>
    requires limit >= 1
    decreases |records| - offset
  {
    if offset >= |records| then []
    else Page(records, limit, offset) + AllPages(records, limit, offset + limit)
  }

  lemma {:induction false} PagesFrom(records: seq<ExecRecord>, limit: nat, offset: nat)
    requires limit >= 1
    ensures AllPages(records, limit, offset) == Reversed(records)[Min(offset, |records|)..]
    decreases |records| - offset
  {
    if offset < |records| {
      PagesFrom(records, limit, offset + limit);
      var end := Min(offset + limit, |records|);
      assert Reversed(records)[offset..] == Reversed(records)[offset..end] + Reversed(records)[end..];
    }
  }

  lemma {:induction false} ReversedKeepsElements<T>(s: seq<T>)
    ensures multiset(Reversed(s)) == multiset(s)
  {
    if s == [] {
    } else {
      assert s == [s[0]] + s[1..];
      assert Reversed(s) == Reversed(s[1..]) + [s[0]];
      ReversedKeepsElements(s[1..]);
    }
  }

  /** Whatever the page size, the pages list every record exactly once, newest first. */
  lemma PagesCoverHistory(records: seq<ExecRecord>, limit: nat)
    requires limit >= 1
    ensures AllPages(records, limit, 0) == Reversed(records)
    ensures multiset(AllPages(records, limit, 0)) == multiset(records)
  {
    PagesFrom(records, limit, 0);
    ReversedKeepsElements(records);
  }

  // ---------- any sequence of calls against an unbounded log ----------

  datatype Op = Add(record: ExecRecord) | Update(id: ReqId, result: ExecResult, at: int)

  /** The records after the calls ops on an object of the given size. */
  ghost function Bounded(ops: seq<Op>, maxSize: nat): seq<ExecRecord> {
    if ops == [] then []
    else match Last(ops)
      case Add(record) => Added(Bounded(Front(ops), maxSize), maxSize, record)
      case Update(id, result, at) => Updated(Bounded(Front(ops), maxSize), id, result, at)
  }

  /** The same calls on a log that forgets nothing. */
  ghost function Log(ops: seq<Op>): seq<ExecRecord> {
    if ops == [] then []
    else match Last(ops)
      case Add(record) => Log(Front(ops)) + [WithBrief(record)]
      case Update(id, result, at) => Updated(Log(Front(ops)), id, result, at)
  }

  ghost function Records(ops: seq<Op>): seq<ExecRecord> {
    if ops == [] then []
    else match Last(ops)
      case Add(record) => Records(Front(ops)) + [record]
      case Update(_, _, _) => Records(Front(ops))
  }

  ghost predicate DistinctIds(records: seq<ExecRecord>) {
    forall i, j :: 0 <= i < j < |records| ==> records[i].id != records[j].id
  }

  lemma {:induction false} LogKeepsIds(ops: seq<Op>)
    ensures |Log(ops)| == |Records(ops)|
    ensures forall k :: 0 <= k < |Log(ops)| ==> Log(ops)[k].id == Records(ops)[k].id
  {
    if ops != [] {
      LogKeepsIds(Front(ops));
    }
  }

  lemma DistinctFront(ops: seq<Op>)
    requires ops != [] && DistinctIds(Records(ops))
    ensures DistinctIds(Records(Front(ops)))
  {
    match Last(ops)
    case Add(record) =>
      var r := Records(Front(ops));
      assert forall i :: 0 <= i < |r| ==> r[i] == Records(ops)[i];
    case Update(_, _, _) =>
  }

  /** Where an id is found in the retained tail, which starts at cut. */
  lemma IndexInTail(log: seq<ExecRecord>, cut: nat, id: ReqId)
    requires DistinctIds(log) && cut <= |log|
    ensures var i := IndexOf(log, id);
            IndexOf(log[cut..], id) == if cut <= i < |log| then i - cut else |log| - cut
  {
    var i := IndexOf(log, id);
    if cut <= i < |log| {
      FirstIndex(log[cut..], id, i - cut);
    } else {
      forall k | 0 <= k < |log| - cut ensures log[cut..][k].id != id {
        assert log[cut..][k] == log[cut + k];
      }
    }
  }

  lemma UpdateInTail<T>(s: seq<T>, cut: nat, i: nat, x: T)
    requires cut <= |s| && i < |s|
    ensures s[i := x][cut..] == if cut <= i then s[cut..][i - cut := x] else s[cut..]
  {
  }

  lemma UpdateInTailOf(log: seq<ExecRecord>, cut: nat, id: ReqId, result: ExecResult, at: int)
    requires DistinctIds(log) && cut <= |log|
    ensures Updated(log[cut..], id, result, at) == Updated(log, id, result, at)[cut..]
  {
    var i, tail := IndexOf(log, id), log[cut..];
    IndexInTail(log, cut, id);
    if cut <= i < |log| {
      var x := Answered(log[i], result, at);
      assert tail[i - cut] == log[i];
      assert Updated(tail, id, result, at) == tail[i - cut := x] && Updated(log, id, result, at) == log[i := x];
      UpdateInTail(log, cut, i, x);
    } else {
      assert Updated(tail, id, result, at) == tail;
      if i < |log| {
        UpdateInTail(log, cut, i, Answered(log[i], result, at));
      }
    }
  }

  /** Updating the retained tail is the tail of the updated log. */
  lemma UpdateCommutesWithNewest(log: seq<ExecRecord>, n: nat, id: ReqId, result: ExecResult, at: int)
    requires DistinctIds(log)
    ensures Updated(Newest(log, n), id, result, at) == Newest(Updated(log, id, result, at), n)
  {
    assert |Updated(log, id, result, at)| == |log|;
    if |log| > n {
      UpdateInTailOf(log, |log| - n, id, result, at);
    }
  }

  lemma AddCommutesWithNewest(log: seq<ExecRecord>, n: nat, record: ExecRecord)
    ensures Newest(Newest(log, n) + [record], n) == Newest(log + [record], n)
  {
  }

  lemma {:induction false} BoundedIsNewest(ops: seq<Op>, maxSize: nat)
    requires DistinctIds(Records(ops))
    ensures Bounded(ops, maxSize) == Newest(Log(ops), maxSize)
  {
    if ops != [] {
      DistinctFront(ops);
      BoundedIsNewest(Front(ops), maxSize);
      LogKeepsIds(Front(ops));
      match Last(ops)
      case Add(record) =>
        AddCommutesWithNewest(Log(Front(ops)), maxSize, WithBrief(record));
      case Update(id, result, at) =>
        UpdateCommutesWithNewest(Log(Front(ops)), maxSize, id, result, at);
    }
  }

  /** tail is what s ends with: n elements, or as many as there are. */
  ghost predicate IsTail<T>(tail: seq<T>, s: seq<T>, n: nat) {
    && |tail| == (if |s| < n then |s| else n)
    && forall k :: 0 <= k < |tail| ==> tail[k] == s[|s| - |tail| + k]
  }

  lemma NewestIsTail<T>(s: seq<T>, n: nat)
    ensures IsTail(Newest(s, n), s, n)
  {
  }

  /** Main result: the object holds what the unbounded log ends with, as much of it as fits. */
  lemma RetainsNewest(ops: seq<Op>, maxSize: nat)
    requires DistinctIds(Records(ops))
    ensures IsTail(Bounded(ops, maxSize), Log(ops), maxSize)
  {
    BoundedIsNewest(ops, maxSize);
    NewestIsTail(Log(ops), maxSize);
  }

  // ---------- answers may arrive in any order ----------

  datatype Answer = Answer(result: ExecResult, at: int)

  ghost function AnsweredAll(record: ExecRecord, answers: seq<Answer>): ExecRecord {
    if answers == [] then record
    else Answered(AnsweredAll(record, Front(answers)), Last(answers).result, Last(answers).at)
  }

  /** The last result among the answers that carries agent a. */
  ghost function LastFrom(answers: seq<Answer>, a: AgentId): Option<ExecResult> {
    if answers == [] then None
    else if Last(answers).result.agentID == a then Some(Last(answers).result)
    else LastFrom(Front(answers), a)
  }

  /** The updates that reach the record with this id: those made after it was added. */
  ghost function AnswersTo(ops: seq<Op>, id: ReqId): seq<Answer> {
    if ops == [] then []
    else match Last(ops)
      case Add(record) => if record.id == id then [] else AnswersTo(Front(ops), id)
      case Update(target, result, at) =>
        AnswersTo(Front(ops), id) + (if target == id then [Answer(result, at)] else [])
  }

  /** Every entry of the log is its added record with exactly its own answers filed, in order. */
  lemma {:induction false} EntryIsItsAnswers(ops: seq<Op>, k: nat)
    requires DistinctIds(Records(ops)) && k < |Records(ops)|
    ensures |Log(ops)| == |Records(ops)|
    ensures Log(ops)[k] == AnsweredAll(WithBrief(Records(ops)[k]), AnswersTo(ops, Records(ops)[k].id))
  {
    LogKeepsIds(ops);
    var front := Front(ops);
    LogKeepsIds(front);
    DistinctFront(ops);
    var id := Records(ops)[k].id;
    match Last(ops)
    case Add(record) =>
      if k < |Records(front)| {
        EntryIsItsAnswers(front, k);
        assert id != Records(ops)[|Records(front)|].id;
      }
    case Update(target, result, at) =>
      EntryIsItsAnswers(front, k);
      var i := IndexOf(Log(front), target);
      if target == id {
        FirstIndex(Log(front), target, k);
        var answers := AnswersTo(front, id);
        assert Front(answers + [Answer(result, at)]) == answers;
      } else {
        assert i != k;
        assert AnswersTo(front, id) + [] == AnswersTo(front, id);
      }
  }

  /** What is filed for an agent is the last answer that came from it. */
  lemma {:induction false} FiledIsLast(record: ExecRecord, answers: seq<Answer>, a: AgentId)
    ensures var filed := AnsweredAll(record, answers).results;
            match LastFrom(answers, a)
            case Some(result) => a in filed && filed[a] == result
            case None => (a in filed <==> a in record.results) && (a in filed ==> filed[a] == record.results[a])
  {
    if answers != [] {
      FiledIsLast(record, Front(answers), a);
    }
  }

  ghost predicate EveryAnswerDone(answers: seq<Answer>) {
    forall k :: 0 <= k < |answers| ==> answers[k].result.done
  }

  /** A record as both exec handlers create it. */
  ghost predicate Fresh(record: ExecRecord) {
    record.results == map[] && record.status == "running" && record.finishedAt == None
  }

  /** With every answer marked done, "completed", a non-empty result map and a finish time go together. */
  ghost predicate StatusTellsAnswers(record: ExecRecord) {
    && (record.status == "completed" <==> record.results != map[])
    && (record.finishedAt.Some? <==> record.results != map[])
    && AllDone(record.results)
  }

  lemma {:induction false} StatusOfAnswers(record: ExecRecord, answers: seq<Answer>)
    requires Fresh(record) && EveryAnswerDone(answers)
    ensures StatusTellsAnswers(AnsweredAll(record, answers))
    ensures AnsweredAll(record, answers).results != map[] <==> answers != []
    ensures AnsweredAll(record, answers).status in {"running", "completed"}
    ensures answers != [] ==> AnsweredAll(record, answers).finishedAt == Some(Last(answers).at)
  {
    if answers != [] {
      StatusOfAnswers(record, Front(answers));
      var before := AnsweredAll(record, Front(answers));
      var result := Last(answers).result;
      assert result.agentID in before.results[result.agentID := result];
    }
  }

  /** After the first n answers every agent's last one is marked done. */
  ghost predicate AllDoneAfter(answers: seq<Answer>, n: nat)
    requires n <= |answers|
  {
    forall a :: LastFrom(answers[..n], a).Some? ==> LastFrom(answers[..n], a).value.done
  }

  /** A new record gets completed exactly when, after some answer, no agent's last one was pending. */
  lemma {:induction false} CompletedExactlyWhenDone(record: ExecRecord, answers: seq<Answer>)
    requires Fresh(record)
    ensures AnsweredAll(record, answers).status == "completed" <==> exists n :: 1 <= n <= |answers| && AllDoneAfter(answers, n)
  {
    if answers != [] {
      var front := Front(answers);
      CompletedExactlyWhenDone(record, front);
      forall n | 1 <= n <= |front| ensures AllDoneAfter(front, n) <==> AllDoneAfter(answers, n) {
        assert front[..n] == answers[..n];
      }
      assert answers[..|answers|] == answers;
      DoneTogether(record, answers);
      assert AnsweredAll(record, answers).status == "completed"
             <==> AnsweredAll(record, front).status == "completed" || AllDoneAfter(answers, |answers|);
    }
  }

  lemma DoneTogether(record: ExecRecord, answers: seq<Answer>)
    requires Fresh(record)
    ensures AllDone(AnsweredAll(record, answers).results) <==> AllDoneAfter(answers, |answers|)
  {
    assert answers[..|answers|] == answers;
    forall a ensures LastFrom(answers, a) == (if a in AnsweredAll(record, answers).results then Some(AnsweredAll(record, answers).results[a]) else None) {
      FiledIsLast(record, answers, a);
    }
  }

  /** Once completed, a record stays completed whatever is filed later. */
  lemma {:induction false} CompletedStays(record: ExecRecord, answers: seq<Answer>)
    requires record.status == "completed"
    ensures AnsweredAll(record, answers).status == "completed"
  {
    if answers != [] {
      CompletedStays(record, Front(answers));
    }
  }

  /** Two arrival orders with the same last answer per agent give the same results and status. */
  lemma AnswersCommute(record: ExecRecord, us: seq<Answer>, vs: seq<Answer>)
    requires Fresh(record) && EveryAnswerDone(us) && EveryAnswerDone(vs)
    requires forall a :: LastFrom(us, a) == LastFrom(vs, a)
    ensures AnsweredAll(record, us).results == AnsweredAll(record, vs).results
    ensures AnsweredAll(record, us).status == AnsweredAll(record, vs).status
  {
    forall a ensures
      && (a in AnsweredAll(record, us).results <==> a in AnsweredAll(record, vs).results)
      && (a in AnsweredAll(record, us).results ==> AnsweredAll(record, us).results[a] == AnsweredAll(record, vs).results[a])
    {
      FiledIsLast(record, us, a);
      FiledIsLast(record, vs, a);
    }
    StatusOfAnswers(record, us);
    StatusOfAnswers(record, vs);
  }

  /** Two call sequences that add the same records and agree per request and agent on the last answer. */
  ghost predicate SameAnswers(ops: seq<Op>, ops': seq<Op>) {
    && Records(ops) == Records(ops')
    && forall id, a :: LastFrom(AnswersTo(ops, id), a) == LastFrom(AnswersTo(ops', id), a)
  }

  ghost predicate MasterOps(ops: seq<Op>) {
    && DistinctIds(Records(ops))
    && (forall k :: 0 <= k < |Records(ops)| ==> Fresh(Records(ops)[k]))
    && (forall k :: 0 <= k < |ops| && ops[k].Update? ==> ops[k].result.done)
  }

  lemma {:induction false} AnswersAreDone(ops: seq<Op>, id: ReqId)
    requires forall k :: 0 <= k < |ops| && ops[k].Update? ==> ops[k].result.done
    ensures EveryAnswerDone(AnswersTo(ops, id))
  {
    if ops != [] {
      AnswersAreDone(Front(ops), id);
      assert Last(ops) == ops[|ops| - 1];
    }
  }

  /** Main result: interleaving of answers with one another and with later Adds is invisible. */
  lemma HistoryConfluence(ops: seq<Op>, ops': seq<Op>, maxSize: nat)
    requires MasterOps(ops) && MasterOps(ops') && SameAnswers(ops, ops')
    ensures |Bounded(ops, maxSize)| == |Bounded(ops', maxSize)|
    ensures forall k :: 0 <= k < |Bounded(ops, maxSize)| ==>
      && Bounded(ops, maxSize)[k].id == Bounded(ops', maxSize)[k].id
      && Bounded(ops, maxSize)[k].results == Bounded(ops', maxSize)[k].results
      && Bounded(ops, maxSize)[k].status == Bounded(ops', maxSize)[k].status
  {
    BoundedIsNewest(ops, maxSize);
    BoundedIsNewest(ops', maxSize);
    LogKeepsIds(ops);
    LogKeepsIds(ops');
    forall k | 0 <= k < |Log(ops)|
      ensures Log(ops)[k].id == Log(ops')[k].id
      ensures Log(ops)[k].results == Log(ops')[k].results
      ensures Log(ops)[k].status == Log(ops')[k].status
    {
      EntryIsItsAnswers(ops, k);
      EntryIsItsAnswers(ops', k);
      var id := Records(ops)[k].id;
      AnswersAreDone(ops, id);
      AnswersAreDone(ops', id);
      AnswersCommute(WithBrief(Records(ops)[k]), AnswersTo(ops, id), AnswersTo(ops', id));
    }
  }

  /** In every reachable history: completed iff answered iff finished. One answer is enough. */
  lemma StatusInEveryHistory(ops: seq<Op>, maxSize: nat, k: nat)
    requires MasterOps(ops) && k < |Bounded(ops, maxSize)|
    ensures StatusTellsAnswers(Bounded(ops, maxSize)[k])
  {
    BoundedIsNewest(ops, maxSize);
    LogKeepsIds(ops);
    var j := k + |Log(ops)| - |Newest(Log(ops), maxSize)|;
    EntryIsItsAnswers(ops, j);
    AnswersAreDone(ops, Records(ops)[j].id);
    StatusOfAnswers(WithBrief(Records(ops)[j]), AnswersTo(ops, Records(ops)[j].id));
  }
}

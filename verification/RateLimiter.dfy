/**
  The per-IP rate limiter (internal/master/middleware/middleware.go).

  Times are nanoseconds on a clock that never goes back. A window that was opened at s
  ends at resetAt = s + window, and a request at resetAt itself still belongs to it.
 */
module RateLimiter {
  import opened Types

  type Ip = string

  datatype Window = Window(count: int, resetAt: int)

  datatype Limits = Limits(rate: int, window: int)

  /** What allow does to the entry of one ip, which may be missing, and whether it admits. */
  function Next(limits: Limits, entry: Option<Window>, now: int): Window {
    if entry.None? || now > entry.value.resetAt then Window(1, now + limits.window)
    else entry.value.(count := entry.value.count + 1)
  }

  predicate Admits(limits: Limits, entry: Option<Window>, now: int) {
    entry.None? || now > entry.value.resetAt || entry.value.count + 1 <= limits.rate
  }

  function Entry(table: map<Ip, Window>, ip: Ip): Option<Window> {
    if ip in table then Some(table[ip]) else None
  }

  function Allowed(limits: Limits, table: map<Ip, Window>, ip: Ip, now: int): map<Ip, Window> {
    table[ip := Next(limits, Entry(table, ip), now)]
  }

  function Swept(table: map<Ip, Window>, now: int): map<Ip, Window> {
    map ip | ip in table && !(now > table[ip].resetAt) :: table[ip]
  }

  // ---------- the mutable object ----------

  class LimiterEntry {
    var count: int
    var resetAt: int

    constructor (count: int, resetAt: int)
      ensures this.count == count && this.resetAt == resetAt
    {
      this.count := count;
      this.resetAt := resetAt;
    }

    function View(): Window
      reads this
    {
      Window(count, resetAt)
    }
  }

  class Limiter {
    var entries: map<Ip, LimiterEntry>
    const limits: Limits

    ghost predicate Valid()
      reads this
    {
      forall ip, ip' :: ip in entries && ip' in entries && ip != ip' ==> entries[ip] != entries[ip']
    }

    ghost function Table(): map<Ip, Window>
      reads this, entries.Values
    {
      map ip | ip in entries :: entries[ip].View()
    }

    constructor (rate: int, window: int)
      ensures Valid() && Table() == map[] && limits == Limits(rate, window)
    {
      limits := Limits(rate, window);
      entries := map[];
    }

    method Allow(ip: Ip, now: int) returns (admitted: bool)
      requires Valid()
      modifies this, entries.Values
      ensures Valid() && fresh(entries.Values - old(entries.Values))
      ensures admitted == Admits(limits, Entry(old(Table()), ip), now)
      ensures Table() == Allowed(limits, old(Table()), ip, now)
    {
      if ip !in entries || now > entries[ip].resetAt {
        var entry := new LimiterEntry(1, now + limits.window);
        entries := entries[ip := entry];
        return true;
      }
      var entry := entries[ip];
      entry.count := entry.count + 1;
      return entry.count <= limits.rate;
    }

    /** One tick of the background sweep. */
    method Cleanup(now: int)
      requires Valid()
      modifies this
      ensures Valid() && entries.Values <= old(entries.Values)
      ensures Table() == Swept(old(Table()), now)
    {
      var todo := entries.Keys;
      ghost var before := entries;
      while todo != {}
        invariant todo <= before.Keys
        invariant entries == map ip | ip in before && (ip in todo || !(now > before[ip].resetAt)) :: before[ip]
        decreases todo
      {
        var ip :| ip in todo;
        todo := todo - {ip};
        if now > entries[ip].resetAt {
          entries := entries - {ip};
        }
      }
    }
  }

  // ---------- traffic and sweeps on one shared table ----------

  datatype Event = Request(ip: Ip, at: int) | Sweep(at: int)

  ghost predicate Clocked(events: seq<Event>) {
    forall i, j :: 0 <= i <= j < |events| ==> events[i].at <= events[j].at
  }

  /** The shared table after the events. */
  ghost function Shared(limits: Limits, events: seq<Event>): map<Ip, Window> {
    if events == [] then map[]
    else match Last(events)
      case Request(ip, at) => Allowed(limits, Shared(limits, Front(events)), ip, at)
      case Sweep(at) => Swept(Shared(limits, Front(events)), at)
  }

  /** Whether the k-th event is a request that the shared table admits. */
  ghost predicate SharedAdmits(limits: Limits, events: seq<Event>, k: nat)
    requires k < |events|
  {
    events[k].Request? && Admits(limits, Entry(Shared(limits, events[..k]), events[k].ip), events[k].at)
  }

  /** Times of the requests of one ip: all that this ip's own counter gets to see. */
  ghost function TimesOf(events: seq<Event>, ip: Ip): seq<int> {
    if events == [] then []
    else if Last(events).Request? && Last(events).ip == ip then TimesOf(Front(events), ip) + [Last(events).at]
    else TimesOf(Front(events), ip)
  }

  /** A counter of its own, never swept, after requests at these times. */
  ghost function Own(limits: Limits, times: seq<int>): Option<Window> {
    if times == [] then None else Some(Next(limits, Own(limits, Front(times)), Last(times)))
  }

  ghost predicate OwnAdmits(limits: Limits, times: seq<int>, k: nat)
    requires k < |times|
  {
    Admits(limits, Own(limits, times[..k]), times[k])
  }

  /** The shared entry is the own counter, or it was swept and the own counter has run out. */
  ghost predicate Simulates(entry: Option<Window>, own: Option<Window>, now: int) {
    entry == own || (entry.None? && own.value.resetAt < now)
  }

  lemma {:induction false} SharedSimulates(limits: Limits, events: seq<Event>, ip: Ip, now: int)
    requires Clocked(events) && (events != [] ==> Last(events).at <= now)
    ensures Simulates(Entry(Shared(limits, events), ip), Own(limits, TimesOf(events, ip)), now)
  {
    if events != [] {
      SharedSimulates(limits, Front(events), ip, Last(events).at);
      if Last(events).Request? && Last(events).ip == ip {
        var times := TimesOf(Front(events), ip);
        assert Front(times + [Last(events).at]) == times;
      }
    }
  }

  /**
    Main result: with sweeps anywhere and any other traffic, the shared table decides each
    request as a counter that belongs to this ip alone and is never swept.
   */
  lemma SharedDecidesLikeOwn(limits: Limits, events: seq<Event>, k: nat)
    requires Clocked(events) && k < |events| && events[k].Request?
    ensures TimesOf(events[..k + 1], events[k].ip) == TimesOf(events[..k], events[k].ip) + [events[k].at]
    ensures SharedAdmits(limits, events, k)
            <==> OwnAdmits(limits, TimesOf(events[..k + 1], events[k].ip), |TimesOf(events[..k], events[k].ip)|)
  {
    var ip := events[k].ip;
    assert Front(events[..k + 1]) == events[..k];
    SharedSimulates(limits, events[..k], ip, events[k].at);
    var times := TimesOf(events[..k + 1], ip);
    assert times[..|times| - 1] == TimesOf(events[..k], ip);
  }

  /** Two runs in which this ip asks at the same times get the same decision, whatever else happens. */
  lemma OthersAndSweepsAreInvisible(limits: Limits, events: seq<Event>, events': seq<Event>, k: nat, k': nat)
    requires Clocked(events) && k < |events| && events[k].Request?
    requires Clocked(events') && k' < |events'| && events'[k'].Request?
    requires events[k].ip == events'[k'].ip
    requires TimesOf(events[..k + 1], events[k].ip) == TimesOf(events'[..k' + 1], events[k].ip)
    ensures SharedAdmits(limits, events, k) <==> SharedAdmits(limits, events', k')
  {
    SharedDecidesLikeOwn(limits, events, k);
    SharedDecidesLikeOwn(limits, events', k');
  }

  // ---------- how much one ip gets through ----------

  ghost predicate Ascending(times: seq<int>) {
    forall i, j :: 0 <= i <= j < |times| ==> times[i] <= times[j]
  }

  /** The first request of a window is admitted even at rate 0. */
  function Quota(limits: Limits): int {
    if limits.rate < 1 then 1 else limits.rate
  }

  /** Admitted requests with from <= time <= to. */
  ghost function AdmittedIn(limits: Limits, times: seq<int>, from: int, to: int): nat {
    if times == [] then 0
    else AdmittedIn(limits, Front(times), from, to)
         + (if from <= Last(times) <= to && Admits(limits, Own(limits, Front(times)), Last(times)) then 1 else 0)
  }

  lemma AscendingFront(times: seq<int>)
    requires Ascending(times) && times != []
    ensures Ascending(Front(times))
    ensures |times| > 1 ==> Last(Front(times)) <= Last(times)
  {
    assert forall i :: 0 <= i < |Front(times)| ==> Front(times)[i] == times[i];
  }

  /** Where the last window of a run stands: it was opened by an admitted request and its count is fair. */
  lemma {:induction false} WindowTellsAdmitted(limits: Limits, times: seq<int>, to: int)
    requires Ascending(times) && limits.window >= 0 && times != [] && Last(times) <= to
    ensures var w := Own(limits, times).value;
            && 1 <= w.count
            && w.resetAt - limits.window <= Last(times)
            && AdmittedIn(limits, times, w.resetAt - limits.window, to) >= Min(w.count, Quota(limits))
  {
    var front := Front(times);
    if front != [] {
      AscendingFront(times);
      WindowTellsAdmitted(limits, front, to);
    }
  }

  /**
    Main result: a request is turned away only after Quota(limits) requests of the same ip
    were admitted within the last window.
   */
  lemma RejectedOnlyAfterQuota(limits: Limits, times: seq<int>, k: nat)
    requires Ascending(times) && limits.window >= 0 && k < |times|
    requires !OwnAdmits(limits, times, k)
    ensures AdmittedIn(limits, times[..k], times[k] - limits.window, times[k]) >= Quota(limits)
  {
    var before := times[..k];
    WindowTellsAdmitted(limits, before, times[k]);
    WiderHoldsMore(limits, before, Own(limits, before).value.resetAt - limits.window, times[k] - limits.window, times[k]);
  }

  lemma {:induction false} WiderHoldsMore(limits: Limits, times: seq<int>, from: int, from': int, to: int)
    requires from' <= from
    ensures AdmittedIn(limits, times, from, to) <= AdmittedIn(limits, times, from', to)
  {
    if times != [] {
      WiderHoldsMore(limits, Front(times), from, from', to);
    }
  }

  /**
    How the windows of a run lie in an interval that starts at from: j of them are over and
    one is open. Each opens after the end of the one before, so one nanosecond and a window
    after its opening. If the first one that counts was not opened inside, its opening
    admission does not count.
   */
  ghost predicate WindowsLie(limits: Limits, w: Window, admitted: nat, from: int, j: nat, inside: bool) {
    var open := Min(w.count, Quota(limits));
    if inside
    then admitted <= j * Quota(limits) + open
         && w.resetAt >= from + limits.window + j * (limits.window + 1)
    else admitted <= j * Quota(limits) + open - 1
         && (j >= 1 ==> w.resetAt >= from + j * (limits.window + 1))
  }

  lemma {:induction false} WindowsInside(limits: Limits, times: seq<int>, from: int, to: int) returns (j: nat, inside: bool)
    requires Ascending(times) && limits.window >= 0 && times != []
    ensures var w := Own(limits, times).value;
            var admitted := AdmittedIn(limits, times, from, to);
            && w.resetAt - limits.window <= Last(times) <= w.resetAt
            && w.count >= 1
            && (Last(times) < from ==> admitted == 0)
            && WindowsLie(limits, w, admitted, from, j, inside)
  {
    var front := Front(times);
    if front == [] {
      j, inside := 0, from <= Last(times);
    } else {
      AscendingFront(times);
      j, inside := WindowsInside(limits, front, from, to);
      if Last(times) > Own(limits, front).value.resetAt {
        if AdmittedIn(limits, front, from, to) == 0 {
          j, inside := 0, from <= Last(times);
        } else {
          assert (j + 1) * Quota(limits) == j * Quota(limits) + Quota(limits);
          assert (j + 1) * (limits.window + 1) == j * (limits.window + 1) + limits.window + 1;
          j := j + 1;
        }
      }
    }
  }

  lemma {:induction false} OnlyUpTo(limits: Limits, times: seq<int>, n: nat, from: int, to: int)
    requires Ascending(times) && n <= |times|
    requires forall i :: n <= i < |times| ==> times[i] > to
    ensures AdmittedIn(limits, times, from, to) == AdmittedIn(limits, times[..n], from, to)
  {
    if n == |times| {
      assert times[..n] == times;
    } else {
      AscendingFront(times);
      assert Front(times)[..n] == times[..n];
      OnlyUpTo(limits, Front(times), n, from, to);
    }
  }

  lemma {:induction false} CutAt(times: seq<int>, to: int) returns (n: nat)
    requires Ascending(times)
    ensures n <= |times|
    ensures n > 0 ==> times[n - 1] <= to
    ensures forall i :: n <= i < |times| ==> times[i] > to
  {
    n := |times|;
    while n > 0 && times[n - 1] > to
      invariant n <= |times|
      invariant forall i :: n <= i < |times| ==> times[i] > to
    {
      n := n - 1;
    }
  }

  lemma Multiples(j: int, k: int, length: int)
    requires length >= 0
    ensures j >= k ==> j * length >= k * length
    ensures (k + 1) * length == k * length + length
  {
  }

  /** How many windows fit in an interval of k window lengths. */
  lemma FewWindowsFit(limits: Limits, w: Window, admitted: nat, from: int, k: nat, j: nat, inside: bool)
    requires limits.window >= 0 && WindowsLie(limits, w, admitted, from, j, inside)
    requires w.resetAt - limits.window <= from + k * limits.window
    ensures inside && k >= 1 ==> j < k
    ensures inside && k == 0 ==> j == 0
    ensures !inside ==> j <= k
  {
    assert j * (limits.window + 1) == j * limits.window + j;
    Multiples(j, k + 1, limits.window);
    Multiples(j, k, limits.window);
  }

  /** And how much they admit. */
  lemma FewWindowsAdmitLittle(limits: Limits, w: Window, admitted: nat, from: int, k: nat, j: nat, inside: bool)
    requires limits.window >= 0 && WindowsLie(limits, w, admitted, from, j, inside)
    requires w.resetAt - limits.window <= from + k * limits.window
    ensures admitted <= Capacity(limits, k)
    ensures admitted == Capacity(limits, k) ==> CanBeFilled(limits, k)
  {
    var q := Quota(limits);
    FewWindowsFit(limits, w, admitted, from, k, j, inside);
    Multiples(k, j, q);
    Multiples(k, j, limits.window);
    Multiples(k, j + 1, q);
    Multiples(k, j, 1);
    assert (j + 1) * q == j * q + q;
    assert j * (limits.window + 1) == j * limits.window + j;
  }

  /** Whether the capacity for k windows can be used up on a clock that counts nanoseconds. */
  predicate CanBeFilled(limits: Limits, k: nat) {
    k <= limits.window || (Quota(limits) == 1 && k == limits.window + 1)
  }

  /** What k window lengths can admit: one less than k + 1 full quotas, or one quota for a single instant. */
  function Capacity(limits: Limits, k: nat): int {
    if k == 0 then Quota(limits) else (k + 1) * Quota(limits) - 1
  }

  /** Main result: no closed interval of k window lengths holds more admissions than its capacity. */
  lemma SlidingBound(limits: Limits, times: seq<int>, from: int, k: nat)
    requires Ascending(times) && limits.window >= 0
    ensures AdmittedIn(limits, times, from, from + k * limits.window) <= Capacity(limits, k) <= (k + 1) * Quota(limits)
    ensures AdmittedIn(limits, times, from, from + k * limits.window) == Capacity(limits, k) ==> CanBeFilled(limits, k)
  {
    var to := from + k * limits.window;
    var n := CutAt(times, to);
    OnlyUpTo(limits, times, n, from, to);
    Multiples(k + 1, 1, Quota(limits));
    if n > 0 {
      var before := times[..n];
      var j, inside := WindowsInside(limits, before, from, to);
      FewWindowsAdmitLittle(limits, Own(limits, before).value, AdmittedIn(limits, before, from, to), from, k, j, inside);
    }
  }

  // ---------- exactly when the capacity is used up ----------

  /** n requests at one time. */
  function WithBurst(times: seq<int>, at: int, n: nat): seq<int>
    decreases n
  {
    if n == 0 then times else WithBurst(times + [at], at, n - 1)
  }

  /** What a counter shows to a request at this time before counting it. */
  ghost function Standing(limits: Limits, own: Option<Window>, at: int): Window {
    if own.None? || at > own.value.resetAt then Window(0, at + limits.window) else own.value
  }

  ghost predicate ComesLast(limits: Limits, times: seq<int>, at: int) {
    Ascending(times) && limits.window >= 0 && (times != [] ==> Last(times) <= at)
  }

  lemma {:induction false} OwnCounts(limits: Limits, times: seq<int>)
    ensures times != [] ==> Own(limits, times).value.count >= 1
  {
    if times != [] {
      OwnCounts(limits, Front(times));
    }
  }

  /** more is times and n more requests at one time, all admitted. */
  ghost predicate Taken(limits: Limits, times: seq<int>, more: seq<int>, at: int, n: nat, from: int, to: int) {
    var w := Standing(limits, Own(limits, times), at);
    && Ascending(more) && more != [] && Last(more) == at
    && Own(limits, more) == Some(w.(count := w.count + n))
    && AdmittedIn(limits, more, from, to) == AdmittedIn(limits, times, from, to) + (if from <= at <= to then n else 0)
  }

  lemma AscendingAppend(times: seq<int>, at: int)
    requires Ascending(times) && (times != [] ==> Last(times) <= at)
    ensures Ascending(times + [at])
  {
  }

  lemma LastFits(limits: Limits, times: seq<int>, more: seq<int>, from: int, to: int)
    requires more != [] && Front(more) == times && Ascending(more)
    requires Standing(limits, Own(limits, times), Last(more)).count + 1 <= Quota(limits)
    ensures Taken(limits, times, more, Last(more), 1, from, to)
  {
    OwnCounts(limits, times);
  }

  lemma NextFits(limits: Limits, times: seq<int>, at: int, from: int, to: int)
    requires ComesLast(limits, times, at)
    requires Standing(limits, Own(limits, times), at).count + 1 <= Quota(limits)
    ensures Taken(limits, times, times + [at], at, 1, from, to)
  {
    AscendingAppend(times, at);
    assert Front(times + [at]) == times;
    LastFits(limits, times, times + [at], from, to);
  }

  lemma TakenTwice(limits: Limits, times: seq<int>, mid: seq<int>, more: seq<int>, at: int, n: nat, m: nat, from: int, to: int)
    requires Taken(limits, times, mid, at, n, from, to) && Taken(limits, mid, more, at, m, from, to) && limits.window >= 0
    requires times != [] ==> Own(limits, times).Some?
    ensures Taken(limits, times, more, at, n + m, from, to)
  {
  }

  lemma StandingNow(limits: Limits, times: seq<int>, mid: seq<int>, at: int, n: nat, from: int, to: int)
    requires Taken(limits, times, mid, at, n, from, to) && limits.window >= 0
    ensures ComesLast(limits, mid, at)
    ensures Standing(limits, Own(limits, mid), at).count == Standing(limits, Own(limits, times), at).count + n
  {
  }

  /** Requests at one time are all admitted as far as the quota lasts. */
  lemma {:induction false} BurstFits(limits: Limits, times: seq<int>, at: int, n: nat, from: int, to: int)
    requires ComesLast(limits, times, at)
    requires 1 <= n && Standing(limits, Own(limits, times), at).count + n <= Quota(limits)
    ensures Taken(limits, times, WithBurst(times, at, n), at, n, from, to)
    decreases n
  {
    NextFits(limits, times, at, from, to);
    if n > 1 {
      var mid := times + [at];
      StandingNow(limits, times, mid, at, 1, from, to);
      BurstFits(limits, mid, at, n - 1, from, to);
      TakenTwice(limits, times, mid, WithBurst(mid, at, n - 1), at, 1, n - 1, from, to);
    }
  }

  /** When the n-th window after one at this time can open at the earliest. */
  function Opening(limits: Limits, at: int, n: nat): int {
    if n == 0 then at else Opening(limits, at, n - 1) + limits.window + 1
  }

  lemma {:induction false} OpeningIs(limits: Limits, at: int, n: nat)
    ensures Opening(limits, at, n) == at + n * limits.window + n
  {
    if n > 0 {
      OpeningIs(limits, at, n - 1);
      assert n * limits.window == (n - 1) * limits.window + limits.window;
    }
  }

  /** Requests before, then n windows in a row, each as early as can be and used up at once. */
  function Bursts(limits: Limits, before: seq<int>, at: int, n: nat): seq<int> {
    if n == 0 then before
    else WithBurst(Bursts(limits, before, at, n - 1), Opening(limits, at, n - 1), Quota(limits))
  }

  lemma {:induction false} BurstsFill(limits: Limits, before: seq<int>, at: int, n: nat, from: int, to: int)
    requires limits.window >= 0 && Ascending(before)
    requires before != [] ==> Last(before) <= Own(limits, before).value.resetAt < at
    requires from <= at <= to && (n >= 1 ==> Opening(limits, at, n - 1) <= to)
    ensures var times := Bursts(limits, before, at, n);
            && Ascending(times) && Opening(limits, at, n) >= at
            && AdmittedIn(limits, times, from, to) == AdmittedIn(limits, before, from, to) + n * Quota(limits)
            && (times != [] ==> Last(times) <= Own(limits, times).value.resetAt < Opening(limits, at, n))
  {
    if n >= 1 {
      BurstsFill(limits, before, at, n - 1, from, to);
      BurstFits(limits, Bursts(limits, before, at, n - 1), Opening(limits, at, n - 1), Quota(limits), from, to);
      assert n * Quota(limits) == (n - 1) * Quota(limits) + Quota(limits);
    }
  }

  ghost predicate Filled(limits: Limits, times: seq<int>, from: int, k: nat) {
    Ascending(times) && AdmittedIn(limits, times, from, from + k * limits.window) == Capacity(limits, k)
  }

  /** A window opened at time 0 and used up at its end. */
  lemma OpeningFill(limits: Limits, to: int) returns (before: seq<int>)
    requires 1 <= limits.window <= to
    ensures before != [] && Ascending(before) && Last(before) <= Own(limits, before).value.resetAt == limits.window
    ensures AdmittedIn(limits, before, limits.window, to) == Quota(limits) - 1
  {
    var from := limits.window;
    assert Ascending([]) && Own(limits, []) == None && AdmittedIn(limits, [], from, to) == 0;
    NextFits(limits, [], 0, from, to);
    before := [] + [0];
    if Quota(limits) > 1 {
      BurstFits(limits, before, from, Quota(limits) - 1, from, to);
      before := WithBurst(before, from, Quota(limits) - 1);
    }
  }

  /** For up to window windows: one is opened before the interval and used up at its start, the others follow. */
  lemma FillAfterOpening(limits: Limits, k: nat) returns (times: seq<int>, from: int)
    requires 1 <= k <= limits.window
    ensures Filled(limits, times, from, k)
  {
    var q, w := Quota(limits), limits.window;
    from := w;
    var to := from + k * w;
    OpeningIs(limits, w + 1, k - 1);
    assert (k - 1) * w == k * w - w;
    var before := OpeningFill(limits, to);
    BurstsFill(limits, before, w + 1, k, from, to);
    times := Bursts(limits, before, w + 1, k);
    assert (k + 1) * q == k * q + q;
  }

  /** From the start of the interval on: enough for a single instant, or when each window admits one. */
  lemma FillFromStart(limits: Limits, k: nat) returns (times: seq<int>, from: int)
    requires limits.window >= 0 && (k == 0 || (Quota(limits) == 1 && k == limits.window + 1))
    ensures Filled(limits, times, from, k)
  {
    from := 0;
    var n := if k == 0 then 1 else k;
    OpeningIs(limits, 0, n - 1);
    if k > 0 {
      assert k * limits.window == (k - 1) * limits.window + limits.window;
    }
    BurstsFill(limits, [], 0, n, from, from + k * limits.window);
    times := Bursts(limits, [], 0, n);
  }

  /**
    Main result: some run uses the capacity of k windows up exactly when k is at most the
    window in nanoseconds, or one more than that if a window admits only one request.
   */
  lemma SlidingBoundIsTight(limits: Limits, k: nat)
    requires limits.window >= 0
    ensures (exists times, from :: Filled(limits, times, from, k)) <==> CanBeFilled(limits, k)
  {
    if times, from :| Filled(limits, times, from, k) {
      SlidingBound(limits, times, from, k);
    }
    if CanBeFilled(limits, k) {
      var times, from;
      if 1 <= k <= limits.window {
        times, from := FillAfterOpening(limits, k);
      } else {
        times, from := FillFromStart(limits, k);
      }
      assert Filled(limits, times, from, k);
    }
  }

  ghost predicate BareBound(limits: Limits, times: seq<int>, from: int, k: nat) {
    AdmittedIn(limits, times, from, from + k * limits.window) <= (k + 1) * limits.rate
  }

  /** The bound with the configured rate in place of the quota holds for all runs exactly when the rate is positive. */
  lemma BareBoundExactly(limits: Limits)
    requires limits.window >= 0
    ensures (forall times, from, k :: Ascending(times) ==> BareBound(limits, times, from, k)) <==> limits.rate >= 1
  {
    if limits.rate >= 1 {
      forall times, from, k | Ascending(times) ensures BareBound(limits, times, from, k) {
        SlidingBound(limits, times, from, k);
      }
    } else {
      assert Front([0]) == [];
      assert Ascending([0]) && !BareBound(limits, [0], 0, 0);
    }
  }

  // ---------- who is turned away, and for how long ----------

  ghost function RequestsIn(times: seq<int>, from: int, to: int): nat {
    if times == [] then 0
    else RequestsIn(Front(times), from, to) + (if from <= Last(times) <= to then 1 else 0)
  }

  lemma {:induction false} AdmittedAreRequests(limits: Limits, times: seq<int>, from: int, to: int)
    ensures AdmittedIn(limits, times, from, to) <= RequestsIn(times, from, to)
  {
    if times != [] {
      AdmittedAreRequests(limits, Front(times), from, to);
    }
  }

  lemma {:induction false} PrefixHoldsFewer(times: seq<int>, n: nat, from: int, to: int)
    requires n <= |times|
    ensures RequestsIn(times[..n], from, to) <= RequestsIn(times, from, to)
  {
    if n == |times| {
      assert times[..n] == times;
    } else {
      assert Front(times)[..n] == times[..n];
      PrefixHoldsFewer(Front(times), n, from, to);
    }
  }

  ghost predicate WithinQuota(limits: Limits, times: seq<int>, from: int) {
    RequestsIn(times, from, from + limits.window) <= Quota(limits)
  }

  ghost predicate Modest(limits: Limits, times: seq<int>) {
    forall from :: WithinQuota(limits, times, from)
  }

  /** A client that stays within the quota in every closed interval of one window is never turned away. */
  lemma ModestClientIsAdmitted(limits: Limits, times: seq<int>, k: nat)
    requires Ascending(times) && limits.window >= 0 && k < |times|
    requires Modest(limits, times)
    ensures OwnAdmits(limits, times, k)
  {
    if !OwnAdmits(limits, times, k) {
      var from := times[k] - limits.window;
      assert WithinQuota(limits, times, from);
      RejectedOnlyAfterQuota(limits, times, k);
      AdmittedAreRequests(limits, times[..k], from, times[k]);
      assert Front(times[..k + 1]) == times[..k];
      PrefixHoldsFewer(times, k + 1, from, times[k]);
    }
  }

  /** Requests within a window leave its end where it is. */
  lemma {:induction false} WindowEndStays(limits: Limits, times: seq<int>, k: nat, i: nat)
    requires 1 <= k <= i <= |times|
    requires forall j :: k <= j < i ==> times[j] <= Own(limits, times[..k]).value.resetAt
    ensures Own(limits, times[..i]).value.resetAt == Own(limits, times[..k]).value.resetAt
  {
    if k < i {
      WindowEndStays(limits, times, k, i - 1);
      assert Front(times[..i]) == times[..i - 1];
    }
  }

  /**
    Main result: after a rejection there is a moment at most one window away such that the
    first request past it is admitted, however many were rejected meanwhile.
   */
  lemma LockoutEnds(limits: Limits, times: seq<int>, k: nat) returns (until: int)
    requires Ascending(times) && limits.window >= 0 && k < |times|
    requires !OwnAdmits(limits, times, k)
    ensures k > 0 && until == Own(limits, times[..k]).value.resetAt
    ensures times[k] <= until <= times[k] + limits.window
    ensures forall i :: k < i < |times| && times[i] > until && times[i - 1] <= until ==> OwnAdmits(limits, times, i)
  {
    until := Own(limits, times[..k]).value.resetAt;
    WindowTellsAdmitted(limits, times[..k], times[k]);
    forall i | k < i < |times| && times[i] > until && times[i - 1] <= until
      ensures OwnAdmits(limits, times, i)
    {
      WindowEndStays(limits, times, k, i);
    }
  }

  // ---------- the same for the shared table ----------

  ghost predicate CountsFor(event: Event, ip: Ip, from: int, to: int) {
    event.Request? && event.ip == ip && from <= event.at <= to
  }

  /** Requests of ip with from <= time <= to that the shared table admits. */
  ghost function SharedAdmittedIn(limits: Limits, events: seq<Event>, ip: Ip, from: int, to: int): nat {
    if events == [] then 0
    else SharedAdmittedIn(limits, Front(events), ip, from, to)
         + (if CountsFor(Last(events), ip, from, to) && Admits(limits, Entry(Shared(limits, Front(events)), ip), Last(events).at)
            then 1 else 0)
  }

  lemma {:induction false} TimesAscend(events: seq<Event>, ip: Ip)
    requires Clocked(events)
    ensures Ascending(TimesOf(events, ip))
    ensures TimesOf(events, ip) != [] ==> events != [] && Last(TimesOf(events, ip)) <= Last(events).at
  {
    if events != [] {
      TimesAscend(Front(events), ip);
    }
  }

  lemma {:induction false} SharedCountsLikeOwn(limits: Limits, events: seq<Event>, ip: Ip, from: int, to: int)
    requires Clocked(events)
    ensures SharedAdmittedIn(limits, events, ip, from, to) == AdmittedIn(limits, TimesOf(events, ip), from, to)
  {
    if events != [] {
      var times := TimesOf(Front(events), ip);
      SharedCountsLikeOwn(limits, Front(events), ip, from, to);
      SharedSimulates(limits, Front(events), ip, Last(events).at);
      if Last(events).Request? && Last(events).ip == ip {
        assert Front(times + [Last(events).at]) == times;
      }
    }
  }

  /** Main result: the sliding bound holds per ip on the shared, swept table. */
  lemma SharedSlidingBound(limits: Limits, events: seq<Event>, ip: Ip, from: int, k: nat)
    requires Clocked(events) && limits.window >= 0
    ensures SharedAdmittedIn(limits, events, ip, from, from + k * limits.window) <= Capacity(limits, k) <= (k + 1) * Quota(limits)
  {
    SharedCountsLikeOwn(limits, events, ip, from, from + k * limits.window);
    TimesAscend(events, ip);
    SlidingBound(limits, TimesOf(events, ip), from, k);
  }

  ghost predicate SharedFilled(limits: Limits, events: seq<Event>, ip: Ip, from: int, k: nat) {
    Clocked(events) && SharedAdmittedIn(limits, events, ip, from, from + k * limits.window) == Capacity(limits, k)
  }

  function Alone(ip: Ip, times: seq<int>): seq<Event> {
    seq(|times|, i requires 0 <= i < |times| => Request(ip, times[i]))
  }

  lemma {:induction false} AloneIsOwn(ip: Ip, times: seq<int>)
    ensures TimesOf(Alone(ip, times), ip) == times
  {
    if times != [] {
      AloneIsOwn(ip, Front(times));
      assert Front(Alone(ip, times)) == Alone(ip, Front(times));
    }
  }

  lemma AloneIsClocked(ip: Ip, times: seq<int>)
    requires Ascending(times)
    ensures Clocked(Alone(ip, times))
  {
    var events := Alone(ip, times);
    assert forall i :: 0 <= i < |events| ==> events[i].at == times[i];
  }

  lemma FilledAlone(limits: Limits, times: seq<int>, ip: Ip, from: int, k: nat)
    requires Filled(limits, times, from, k)
    ensures SharedFilled(limits, Alone(ip, times), ip, from, k)
  {
    AloneIsOwn(ip, times);
    AloneIsClocked(ip, times);
    SharedCountsLikeOwn(limits, Alone(ip, times), ip, from, from + k * limits.window);
  }

  lemma FilledShared(limits: Limits, events: seq<Event>, ip: Ip, from: int, k: nat)
    requires SharedFilled(limits, events, ip, from, k)
    ensures Filled(limits, TimesOf(events, ip), from, k)
  {
    SharedCountsLikeOwn(limits, events, ip, from, from + k * limits.window);
    TimesAscend(events, ip);
  }

  /** Main result: and that bound is reached by some traffic exactly for these numbers of windows. */
  lemma SharedSlidingBoundIsTight(limits: Limits, ip: Ip, k: nat)
    requires limits.window >= 0
    ensures (exists events, from :: SharedFilled(limits, events, ip, from, k)) <==> CanBeFilled(limits, k)
  {
    SlidingBoundIsTight(limits, k);
    if events, from :| SharedFilled(limits, events, ip, from, k) {
      FilledShared(limits, events, ip, from, k);
    }
    if times, from :| Filled(limits, times, from, k) {
      FilledAlone(limits, times, ip, from, k);
    }
  }

  /** Main result: the shared table turns a request away only after a quota of admissions in the last window. */
  lemma SharedRejectsOnlyAfterQuota(limits: Limits, events: seq<Event>, k: nat)
    requires Clocked(events) && limits.window >= 0 && k < |events| && events[k].Request?
    requires !SharedAdmits(limits, events, k)
    ensures SharedAdmittedIn(limits, events[..k], events[k].ip, events[k].at - limits.window, events[k].at) >= Quota(limits)
  {
    var ip, at := events[k].ip, events[k].at;
    var times := TimesOf(events[..k + 1], ip);
    SharedDecidesLikeOwn(limits, events, k);
    TimesAscend(events[..k + 1], ip);
    RejectedOnlyAfterQuota(limits, times, |times| - 1);
    assert Front(times) == TimesOf(events[..k], ip);
    SharedCountsLikeOwn(limits, events[..k], ip, at - limits.window, at);
  }

  /** Main result: an ip that has kept within the quota in every closed window so far is not turned away. */
  lemma SharedAdmitsModestClient(limits: Limits, events: seq<Event>, k: nat)
    requires Clocked(events) && limits.window >= 0 && k < |events| && events[k].Request?
    requires Modest(limits, TimesOf(events[..k + 1], events[k].ip))
    ensures SharedAdmits(limits, events, k)
  {
    var times := TimesOf(events[..k + 1], events[k].ip);
    SharedDecidesLikeOwn(limits, events, k);
    TimesAscend(events[..k + 1], events[k].ip);
    ModestClientIsAdmitted(limits, times, |times| - 1);
  }

  /** After the first i events the window of ip that ends at until is on file, or over and swept. */
  ghost predicate StillCloses(limits: Limits, events: seq<Event>, i: nat, ip: Ip, until: int)
    requires i <= |events|
  {
    match Entry(Shared(limits, events[..i]), ip)
    case Some(w) => w.resetAt == until
    case None => i > 0 && events[i - 1].at > until
  }

  ghost predicate NobodyPast(events: seq<Event>, k: nat, i: nat, ip: Ip, until: int)
    requires k <= i <= |events|
  {
    forall j :: k <= j < i && events[j].Request? && events[j].ip == ip ==> events[j].at <= until
  }

  lemma {:induction false} WindowOnFileStays(limits: Limits, events: seq<Event>, k: nat, i: nat, ip: Ip, until: int)
    requires Clocked(events) && k <= i <= |events| && NobodyPast(events, k, i, ip, until)
    requires StillCloses(limits, events, k, ip, until)
    ensures StillCloses(limits, events, i, ip, until)
    decreases i
  {
    if k < i {
      WindowOnFileStays(limits, events, k, i - 1, ip, until);
      assert Front(events[..i]) == events[..i - 1];
    }
  }

  /**
    Main result: the end of the window that turned a request away is at most one window later,
    and the ip's first request past it is admitted, whatever else happens until then.
   */
  lemma SharedLockoutEnds(limits: Limits, events: seq<Event>, k: nat) returns (until: int)
    requires Clocked(events) && limits.window >= 0 && k < |events| && events[k].Request?
    requires !SharedAdmits(limits, events, k)
    ensures Entry(Shared(limits, events[..k]), events[k].ip).Some?
    ensures until == Shared(limits, events[..k])[events[k].ip].resetAt
    ensures events[k].at <= until <= events[k].at + limits.window
    ensures forall i :: k < i < |events| && events[i].Request? && events[i].ip == events[k].ip
              && until < events[i].at && NobodyPast(events, k, i, events[k].ip, until)
              ==> SharedAdmits(limits, events, i)
  {
    var ip := events[k].ip;
    until := Shared(limits, events[..k])[ip].resetAt;
    var times := TimesOf(events[..k + 1], ip);
    SharedDecidesLikeOwn(limits, events, k);
    TimesAscend(events[..k + 1], ip);
    assert Front(times) == TimesOf(events[..k], ip);
    WindowTellsAdmitted(limits, Front(times), events[k].at);
    SharedSimulates(limits, events[..k], ip, events[k].at);
    forall i | k < i < |events| && events[i].Request? && events[i].ip == ip && until < events[i].at && NobodyPast(events, k, i, ip, until)
      ensures SharedAdmits(limits, events, i)
    {
      WindowOnFileStays(limits, events, k, i, ip, until);
    }
  }

  // ---------- what a sweep leaves ----------

  /** Main result: after a sweep the table holds, for each ip, its own counter if its window is not over, and nothing else. */
  lemma SweepLeavesOpenWindows(limits: Limits, events: seq<Event>, ip: Ip)
    requires Clocked(events) && events != [] && Last(events).Sweep?
    ensures Entry(Shared(limits, events), ip)
            == match Own(limits, TimesOf(events, ip))
               case Some(w) => if w.resetAt >= Last(events).at then Some(w) else None
               case None => None
  {
    SharedSimulates(limits, Front(events), ip, Last(events).at);
  }

  /** So whoever is on file after a sweep was admitted within the last window. */
  lemma SweptTableIsRecent(limits: Limits, events: seq<Event>, ip: Ip)
    requires Clocked(events) && events != [] && Last(events).Sweep? && limits.window >= 0
    requires ip in Shared(limits, events)
    ensures SharedAdmittedIn(limits, events, ip, Last(events).at - limits.window, Last(events).at) >= 1
  {
    var times, now := TimesOf(events, ip), Last(events).at;
    SweepLeavesOpenWindows(limits, events, ip);
    TimesAscend(events, ip);
    WindowTellsAdmitted(limits, times, now);
    WiderHoldsMore(limits, times, Own(limits, times).value.resetAt - limits.window, now - limits.window, now);
    SharedCountsLikeOwn(limits, events, ip, now - limits.window, now);
  }
}

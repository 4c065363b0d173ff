/**
 * The backend's process analyser over process lists given as input: lookup by
 * PID, alert extraction, threshold classification with the top consumers, and
 * stuck-process detection across the most recent snapshots.
 */
module ProcessMonitor {
  import opened Wrappers
  import opened Seqs
  import opened Records

  const CpuCritical: real := 80.0
  const CpuWarning: real := 50.0
  const MemoryCritical: real := 20.0
  const MemoryWarning: real := 10.0

  // ---------------------------------------------------------------------------
  // get_process_by_pid
  // ---------------------------------------------------------------------------

  /** The first process whose pid matches, or None when none does. */
  method GetProcessByPid(processes: seq<Process>, pid: int) returns (r: Option<Process>)
    ensures r.None? <==> forall i :: 0 <= i < |processes| ==> processes[i].pid != pid
    ensures r.Some? ==> r.value.pid == pid
    ensures r.Some? ==>
      exists i :: 0 <= i < |processes| && processes[i] == r.value && (forall j :: 0 <= j < i ==> processes[j].pid != pid)
  {
    var i := 0;
    while i < |processes|
      invariant 0 <= i <= |processes|
      invariant forall j :: 0 <= j < i ==> processes[j].pid != pid
    {
      if processes[i].pid == pid {
        return Some(processes[i]);
      }
      i := i + 1;
    }
    return None;
  }

  // ---------------------------------------------------------------------------
  // get_alerts
  // ---------------------------------------------------------------------------

  /** `proc.get("alert")` is truthy: present and a non-empty object. */
  predicate HasAlert(p: Process) {
    p.alert.Some? && |p.alert.value| > 0
  }

  /** `proc["alert"].copy()` with `pid` and `name` overwritten from the process. */
  function TagAlert(p: Process): (a: map<string, Field>)
    requires HasAlert(p)
    ensures a.Keys == p.alert.value.Keys + {"pid", "name"}
    ensures a["pid"] == IntField(p.pid) && a["name"] == StrField(p.name)
    ensures forall k :: k in p.alert.value && k != "pid" && k != "name" ==> a[k] == p.alert.value[k]
  {
    p.alert.value["pid" := IntField(p.pid)]["name" := StrField(p.name)]
  }

  /** One tagged alert per process with a truthy alert, in process order. */
  function AlertsOf(processes: seq<Process>): (alerts: seq<map<string, Field>>)
    ensures |alerts| == |Filter(processes, HasAlert)|
  {
    var flagged := Filter(processes, HasAlert);
    seq(|flagged|, i requires 0 <= i < |flagged| => TagAlert(flagged[i]))
  }

  /** A single process yields its alert or nothing. */
  lemma AlertsOfOne(p: Process)
    ensures AlertsOf([p]) == if HasAlert(p) then [TagAlert(p)] else []
  {
    assert [p][1..] == [];
  }

  /** Alerts of a concatenation are the concatenation of the alerts: order is kept. */
  lemma AlertsOfAppend(ps: seq<Process>, qs: seq<Process>)
    ensures AlertsOf(ps + qs) == AlertsOf(ps) + AlertsOf(qs)
  {
    FilterAppend(ps, qs, HasAlert);
  }

  method GetAlerts(processes: seq<Process>) returns (alerts: seq<map<string, Field>>)
    ensures alerts == AlertsOf(processes)
  {
    alerts := [];
    var i := 0;
    while i < |processes|
      invariant 0 <= i <= |processes|
      invariant alerts == AlertsOf(processes[..i])
    {
      var proc := processes[i];
      if HasAlert(proc) {
        alerts := alerts + [TagAlert(proc)];
      }
      AlertsOfAppend(processes[..i], [proc]);
      AlertsOfOne(proc);
      assert processes[..i + 1] == processes[..i] + [proc];
      i := i + 1;
    }
    assert processes[..i] == processes;
  }

  // ---------------------------------------------------------------------------
  // analyze_resource_usage
  // ---------------------------------------------------------------------------

  datatype Severity = Critical | Warning

  datatype CpuEntry = CpuEntry(pid: int, name: string, cpuPercent: real, severity: Severity)
  datatype MemoryEntry = MemoryEntry(pid: int, name: string, memoryPercent: real, memoryMb: real, severity: Severity)
  datatype ZombieEntry = ZombieEntry(pid: int, name: string, status: Option<string>)
  datatype CpuConsumer = CpuConsumer(pid: int, name: string, cpuPercent: real)
  datatype MemoryConsumer = MemoryConsumer(pid: int, name: string, memoryPercent: real, memoryMb: real)

  /** The `analyze_resource_usage` dictionary. Totals are exact; the source rounds them. */
  datatype Usage = Usage(
    totalProcesses: nat,
    highCpu: seq<CpuEntry>,
    highMemory: seq<MemoryEntry>,
    zombies: seq<ZombieEntry>,
    totalCpu: real,
    totalMemory: real,
    topCpu: seq<CpuConsumer>,
    topMemory: seq<MemoryConsumer>)

  predicate IsHighCpu(p: Process) {
    CpuOf(p) > CpuWarning
  }

  predicate IsHighMemory(p: Process) {
    MemOf(p) > MemoryWarning
  }

  predicate IsZombie(p: Process) {
    p.status == Some("zombie") || p.status == Some("defunct")
  }

  function CpuEntryOf(p: Process): CpuEntry {
    CpuEntry(p.pid, p.name, CpuOf(p), if CpuOf(p) > CpuCritical then Critical else Warning)
  }

  function MemoryEntryOf(p: Process): MemoryEntry {
    MemoryEntry(p.pid, p.name, MemOf(p), MemMbOf(p), if MemOf(p) > MemoryCritical then Critical else Warning)
  }

  function ZombieEntryOf(p: Process): ZombieEntry {
    ZombieEntry(p.pid, p.name, p.status)
  }

  function CpuConsumerOf(p: Process): CpuConsumer {
    CpuConsumer(p.pid, p.name, CpuOf(p))
  }

  function MemoryConsumerOf(p: Process): MemoryConsumer {
    MemoryConsumer(p.pid, p.name, MemOf(p), MemMbOf(p))
  }

  function Sum(xs: seq<real>): real {
    if xs == [] then 0.0 else xs[0] + Sum(xs[1..])
  }

  /** `sorted(s, key=key, reverse=True)`: a stable sort by descending key. */
  function SortDesc<T>(s: seq<T>, key: T -> real): (r: seq<T>)
    ensures multiset(r) == multiset(s)
    ensures |r| == |s|
  {
    if s == [] then []
    else
      assert s == [s[0]] + s[1..];
      InsertDesc(s[0], SortDesc(s[1..], key), key)
  }

  /** Places `x` before the first element whose key is not above its own. */
  function InsertDesc<T>(x: T, s: seq<T>, key: T -> real): (r: seq<T>)
    ensures multiset(r) == multiset(s) + multiset{x}
    ensures |r| == |s| + 1
  {
    if s == [] || key(x) >= key(s[0]) then [x] + s
    else
      assert s == [s[0]] + s[1..];
      [s[0]] + InsertDesc(x, s[1..], key)
  }

  ghost predicate NonIncreasing<T>(s: seq<T>, key: T -> real) {
    forall i, j :: 0 <= i < j < |s| ==> key(s[i]) >= key(s[j])
  }

  /** Inserting adds `x` and nothing else. */
  lemma InsertDescMembers<T>(x: T, s: seq<T>, key: T -> real)
    ensures forall y :: y in InsertDesc(x, s, key) ==> y == x || y in s
  {
    var r := InsertDesc(x, s, key);
    forall y | y in r ensures y == x || y in s {
      assert y in multiset(r);
    }
  }

  /** The head of a non-increasing sequence has the largest key. */
  lemma HeadIsLargest<T>(s: seq<T>, key: T -> real)
    requires s != [] && NonIncreasing(s, key)
    ensures forall y :: y in s[1..] ==> key(y) <= key(s[0])
  {
    forall y | y in s[1..] ensures key(y) <= key(s[0]) {
      var m :| 0 <= m < |s| - 1 && s[1..][m] == y;
      assert s[m + 1] == y;
    }
  }

  lemma ConsSorted<T>(h: T, tail: seq<T>, key: T -> real)
    requires NonIncreasing(tail, key)
    requires forall y :: y in tail ==> key(y) <= key(h)
    ensures NonIncreasing([h] + tail, key)
  {
    var r := [h] + tail;
    forall i, j | 0 <= i < j < |r| ensures key(r[i]) >= key(r[j]) {
      assert r[j] == tail[j - 1];
      if i > 0 {
        assert r[i] == tail[i - 1];
      } else {
        assert r[j] in tail;
      }
    }
  }

  lemma {:induction false} InsertDescSorted<T>(x: T, s: seq<T>, key: T -> real)
    requires NonIncreasing(s, key)
    ensures NonIncreasing(InsertDesc(x, s, key), key)
  {
    if s == [] || key(x) >= key(s[0]) {
      if s != [] {
        HeadIsLargest(s, key);
        assert s == [s[0]] + s[1..];
      }
      ConsSorted(x, s, key);
    } else {
      var t := s[1..];
      NonIncreasingTail(s, key);
      InsertDescSorted(x, t, key);
      InsertDescMembers(x, t, key);
      HeadIsLargest(s, key);
      ConsSorted(s[0], InsertDesc(x, t, key), key);
    }
  }

  lemma {:induction false} SortDescSorted<T>(s: seq<T>, key: T -> real)
    ensures NonIncreasing(SortDesc(s, key), key)
  {
    if s != [] {
      SortDescSorted(s[1..], key);
      InsertDescSorted(s[0], SortDesc(s[1..], key), key);
    }
  }

  lemma NonIncreasingTail<T>(s: seq<T>, key: T -> real)
    requires s != [] && NonIncreasing(s, key)
    ensures NonIncreasing(s[1..], key)
  {
    forall i, j | 0 <= i < j < |s| - 1 ensures key(s[1..][i]) >= key(s[1..][j]) {
      assert s[1..][i] == s[i + 1] && s[1..][j] == s[j + 1];
    }
  }

  /** Selects the elements whose key is exactly `v`. */
  function KeyIs<T>(key: T -> real, v: real): T -> bool {
    y => key(y) == v
  }

  /** Two elements with different keys cannot both have key `v`. */
  lemma DifferentKeys<T>(x: T, y: T, key: T -> real, v: real)
    requires key(x) != key(y)
    ensures Filter([x], KeyIs(key, v)) == [] || Filter([y], KeyIs(key, v)) == []
  {
    FilterOne(x, KeyIs(key, v));
    FilterOne(y, KeyIs(key, v));
  }

  lemma SwapFront<T>(a: seq<T>, b: seq<T>, c: seq<T>)
    requires a == [] || b == []
    ensures b + (a + c) == a + (b + c)
  {
  }

  lemma {:induction false} InsertDescStable<T>(x: T, s: seq<T>, key: T -> real, v: real)
    requires NonIncreasing(s, key)
    ensures Filter(InsertDesc(x, s, key), KeyIs(key, v)) == Filter([x], KeyIs(key, v)) + Filter(s, KeyIs(key, v))
  {
    var k := KeyIs(key, v);
    if s == [] || key(x) >= key(s[0]) {
      assert InsertDesc(x, s, key) == [x] + s;
      FilterAppend([x], s, k);
    } else {
      var t := s[1..];
      NonIncreasingTail(s, key);
      InsertDescStable(x, t, key, v);
      assert InsertDesc(x, s, key) == [s[0]] + InsertDesc(x, t, key);
      FilterAppend([s[0]], InsertDesc(x, t, key), k);
      assert s == [s[0]] + t;
      FilterAppend([s[0]], t, k);
      DifferentKeys(x, s[0], key, v);
      SwapFront(Filter([x], k), Filter([s[0]], k), Filter(t, k));
    }
  }

  /** Stability: for every key value, those elements keep their original relative order. */
  lemma {:induction false} SortDescStable<T>(s: seq<T>, key: T -> real, v: real)
    ensures Filter(SortDesc(s, key), KeyIs(key, v)) == Filter(s, KeyIs(key, v))
  {
    if s != [] {
      var t := s[1..];
      var sortedTail := SortDesc(t, key);
      assert SortDesc(s, key) == InsertDesc(s[0], sortedTail, key);
      SortDescStable(t, key, v);
      SortDescSorted(t, key);
      InsertDescStable(s[0], sortedTail, key, v);
      assert s == [s[0]] + t;
      FilterAppend([s[0]], t, KeyIs(key, v));
    }
  }

  const TopCount: nat := 5

  function AnalyzeResourceUsage(processes: seq<Process>): (u: Usage)
    ensures u.totalProcesses == |processes|
  {
    if processes == [] then Usage(0, [], [], [], 0.0, 0.0, [], [])
    else
      Usage(
        |processes|,
        Map(Filter(processes, IsHighCpu), CpuEntryOf),
        Map(Filter(processes, IsHighMemory), MemoryEntryOf),
        Map(Filter(processes, IsZombie), ZombieEntryOf),
        Sum(Map(processes, CpuOf)),
        Sum(Map(processes, MemOf)),
        Map(FirstN(SortDesc(processes, CpuOf), TopCount), CpuConsumerOf),
        Map(FirstN(SortDesc(processes, MemOf), TopCount), MemoryConsumerOf))
  }

  /** No processes: zero totals and empty lists. */
  lemma AnalyzeEmpty()
    ensures AnalyzeResourceUsage([]) == Usage(0, [], [], [], 0.0, 0.0, [], [])
  {
  }

  /**
   * `high_cpu_processes`: exactly the processes above 50% CPU, in input order,
   * critical exactly when above 80%.
   */
  lemma HighCpuExact(processes: seq<Process>)
    ensures var u := AnalyzeResourceUsage(processes);
      (forall p :: p in processes ==> (CpuEntryOf(p) in u.highCpu <==> CpuOf(p) > CpuWarning)) &&
      (forall e :: e in u.highCpu ==>
        e.cpuPercent > CpuWarning && (e.severity == Critical <==> e.cpuPercent > CpuCritical)) &&
      IsSubsequence(u.highCpu, Map(processes, CpuEntryOf))
  {
    var u := AnalyzeResourceUsage(processes);
    var f := Filter(processes, IsHighCpu);
    MapFilterMembers(processes, IsHighCpu, CpuEntryOf);
    assert u.highCpu == Map(f, CpuEntryOf);
    FilterIsSubsequence(processes, IsHighCpu);
    MapPreservesSubsequence(f, processes, CpuEntryOf);
  }

  /**
   * `high_memory_processes`: exactly the processes above 10% memory, in input
   * order, critical exactly when above 20%; a missing `memory_mb` reads 0.
   */
  lemma HighMemoryExact(processes: seq<Process>)
    ensures var u := AnalyzeResourceUsage(processes);
      (forall p :: p in processes ==> (MemoryEntryOf(p) in u.highMemory <==> MemOf(p) > MemoryWarning)) &&
      (forall e :: e in u.highMemory ==>
        e.memoryPercent > MemoryWarning && (e.severity == Critical <==> e.memoryPercent > MemoryCritical)) &&
      IsSubsequence(u.highMemory, Map(processes, MemoryEntryOf))
  {
    var u := AnalyzeResourceUsage(processes);
    var f := Filter(processes, IsHighMemory);
    MapFilterMembers(processes, IsHighMemory, MemoryEntryOf);
    assert u.highMemory == Map(f, MemoryEntryOf);
    FilterIsSubsequence(processes, IsHighMemory);
    MapPreservesSubsequence(f, processes, MemoryEntryOf);
  }


  /** `zombie_processes`: exactly the processes whose status is "zombie" or "defunct". */
  lemma ZombiesExact(processes: seq<Process>)
    ensures var u := AnalyzeResourceUsage(processes);
      (forall p :: p in processes ==> (ZombieEntryOf(p) in u.zombies <==> IsZombie(p))) &&
      IsSubsequence(u.zombies, Map(processes, ZombieEntryOf))
  {
    var f := Filter(processes, IsZombie);
    MapFilterMembers(processes, IsZombie, ZombieEntryOf);
    FilterIsSubsequence(processes, IsZombie);
    MapPreservesSubsequence(f, processes, ZombieEntryOf);
  }

  /**
   * `top_cpu_consumers`: the first min(5, n) of a stable descending sort by CPU,
   * so each listed value is at least every value left out.
   */
  lemma TopCpuConsumers(processes: seq<Process>)
    ensures var u := AnalyzeResourceUsage(processes);
      var sorted := SortDesc(processes, CpuOf);
      |u.topCpu| == (if |processes| < TopCount then |processes| else TopCount) &&
      multiset(sorted) == multiset(processes) &&
      (forall i :: 0 <= i < |u.topCpu| ==> u.topCpu[i] == CpuConsumerOf(sorted[i])) &&
      (forall i, j :: 0 <= i < j < |u.topCpu| ==> u.topCpu[i].cpuPercent >= u.topCpu[j].cpuPercent) &&
      (forall i, j :: 0 <= i < |u.topCpu| <= j < |sorted| ==> u.topCpu[i].cpuPercent >= CpuOf(sorted[j]))
  {
    SortDescSorted(processes, CpuOf);
  }

  /** `top_memory_consumers`: the same selection by memory percentage. */
  lemma TopMemoryConsumers(processes: seq<Process>)
    ensures var u := AnalyzeResourceUsage(processes);
      var sorted := SortDesc(processes, MemOf);
      |u.topMemory| == (if |processes| < TopCount then |processes| else TopCount) &&
      multiset(sorted) == multiset(processes) &&
      (forall i :: 0 <= i < |u.topMemory| ==> u.topMemory[i] == MemoryConsumerOf(sorted[i])) &&
      (forall i, j :: 0 <= i < j < |u.topMemory| ==> u.topMemory[i].memoryPercent >= u.topMemory[j].memoryPercent) &&
      (forall i, j :: 0 <= i < |u.topMemory| <= j < |sorted| ==> u.topMemory[i].memoryPercent >= MemOf(sorted[j]))
  {
    SortDescSorted(processes, MemOf);
  }

  // ---------------------------------------------------------------------------
  // detect_stuck_processes
  // ---------------------------------------------------------------------------

  /** Where Python's `files[-window:]` starts on a list of `n` files. */
  function RecentStart(n: nat, window: int): (start: nat)
    ensures start <= n
    ensures 0 < window <= n ==> n - start == window
    ensures window == 0 ==> start == 0
    ensures window < 0 ==> start == (if -window <= n then -window else n)
  {
    if window > 0 then (if window <= n then n - window else 0)
    else if -window <= n then -window
    else n
  }

  /** The process lists of several snapshots, one after the other. */
  function Flatten(snapshots: seq<seq<Process>>): seq<Process> {
    if snapshots == [] then []
    else Flatten(snapshots[..|snapshots| - 1]) + snapshots[|snapshots| - 1]
  }

  function PidIs(pid: int): Process -> bool {
    (p: Process) => p.pid == pid
  }

  /** Every record of `pid`, in the order the loops meet them. */
  function Sightings(seen: seq<Process>, pid: int): seq<Process> {
    Filter(seen, PidIs(pid))
  }

  /** `cpu_values` of `pid`: one CPU sample per sighting, absent values read as 0. */
  function Samples(seen: seq<Process>, pid: int): (values: seq<real>)
    ensures |values| == |Sightings(seen, pid)|
  {
    Map(Sightings(seen, pid), CpuOf)
  }

  /** The distinct pids of `seen` by first sighting: the key order of `pid_cpu_history`. */
  function SeenPids(seen: seq<Process>): seq<int> {
    if seen == [] then []
    else
      var prev := SeenPids(seen[..|seen| - 1]);
      var pid := seen[|seen| - 1].pid;
      if pid in prev then prev else prev + [pid]
  }

  /** An entry of `pid_cpu_history`. */
  datatype History = History(name: string, cpuValues: seq<real>, user: Option<string>, command: Option<string>)

  /** The entry the loops build for `pid`: identity from the first sighting, all samples. */
  function HistoryOf(seen: seq<Process>, pid: int): History
    requires Sightings(seen, pid) != []
  {
    var first := Sightings(seen, pid)[0];
    History(first.name, Samples(seen, pid), first.user, first.command)
  }

  /** One inner-loop step: a new pid gets an empty entry, then the sample is appended. */
  function Record(history: map<int, History>, proc: Process): map<int, History> {
    var entry := if proc.pid in history then history[proc.pid] else History(proc.name, [], proc.user, proc.command);
    history[proc.pid := entry.(cpuValues := entry.cpuValues + [CpuOf(proc)])]
  }

  /** `history` and its key order `order` summarise the records `seen` so far. */
  ghost predicate HistoryInv(seen: seq<Process>, history: map<int, History>, order: seq<int>) {
    && order == SeenPids(seen)
    && (forall pid :: pid in history <==> pid in order)
    && (forall pid :: pid in history ==> Sightings(seen, pid) != [] && history[pid] == HistoryOf(seen, pid))
  }

  lemma SightingsSnoc(seen: seq<Process>, proc: Process, pid: int)
    ensures Sightings(seen + [proc], pid) == Sightings(seen, pid) + (if proc.pid == pid then [proc] else [])
  {
    FilterAppend(seen, [proc], PidIs(pid));
    assert [proc][1..] == [];
  }

  lemma SeenPidsSnoc(seen: seq<Process>, proc: Process)
    ensures SeenPids(seen + [proc]) == if proc.pid in SeenPids(seen) then SeenPids(seen) else SeenPids(seen) + [proc.pid]
  {
    assert (seen + [proc])[..|seen|] == seen;
  }

  /** The key order lists each pid with a sighting, exactly once. */
  lemma {:induction false} SeenPidsExact(seen: seq<Process>)
    ensures forall pid :: pid in SeenPids(seen) <==> Sightings(seen, pid) != []
    ensures Distinct(SeenPids(seen))
  {
    if seen != [] {
      var init := seen[..|seen| - 1];
      var last := seen[|seen| - 1];
      assert seen == init + [last];
      SeenPidsExact(init);
      SeenPidsSnoc(init, last);
      forall pid ensures pid in SeenPids(seen) <==> Sightings(seen, pid) != [] {
        SightingsSnoc(init, last, pid);
      }
    }
  }

  /** The entry of the recorded pid after the step. */
  lemma RecordEntry(seen: seq<Process>, history: map<int, History>, order: seq<int>, proc: Process)
    requires HistoryInv(seen, history, order)
    ensures Sightings(seen + [proc], proc.pid) != []
    ensures Record(history, proc)[proc.pid] == HistoryOf(seen + [proc], proc.pid)
  {
    var pid := proc.pid;
    SightingsSnoc(seen, proc, pid);
    var f := Sightings(seen, pid);
    assert Sightings(seen + [proc], pid) == f + [proc];
    assert Map(f + [proc], CpuOf) == Map(f, CpuOf) + [CpuOf(proc)];
    if pid in history {
      assert (f + [proc])[0] == f[0];
    } else {
      SeenPidsExact(seen);
      assert f == [];
      assert f + [proc] == [proc];
    }
  }

  /** The entries of the other pids are untouched and still summarise their sightings. */
  lemma RecordOther(seen: seq<Process>, history: map<int, History>, proc: Process, pid: int)
    requires pid != proc.pid && pid in history
    requires Sightings(seen, pid) != [] && history[pid] == HistoryOf(seen, pid)
    ensures Sightings(seen + [proc], pid) != []
    ensures Record(history, proc)[pid] == HistoryOf(seen + [proc], pid)
  {
    SightingsSnoc(seen, proc, pid);
    assert Sightings(seen + [proc], pid) == Sightings(seen, pid);
  }

  lemma RecordStep(seen: seq<Process>, history: map<int, History>, order: seq<int>, proc: Process)
    requires HistoryInv(seen, history, order)
    ensures HistoryInv(seen + [proc], Record(history, proc), if proc.pid in history then order else order + [proc.pid])
  {
    SeenPidsSnoc(seen, proc);
    var after := Record(history, proc);
    RecordEntry(seen, history, order, proc);
    forall pid | pid in after
      ensures Sightings(seen + [proc], pid) != [] && after[pid] == HistoryOf(seen + [proc], pid)
    {
      if pid != proc.pid {
        RecordOther(seen, history, proc, pid);
      }
    }
  }

  function Min(xs: seq<real>): (m: real)
    requires |xs| > 0
    ensures m in xs
    ensures forall x :: x in xs ==> m <= x
  {
    if |xs| == 1 then xs[0]
    else
      var rest := Min(xs[1..]);
      assert xs == [xs[0]] + xs[1..];
      if xs[0] <= rest then xs[0] else rest
  }

  function Max(xs: seq<real>): (m: real)
    requires |xs| > 0
    ensures m in xs
    ensures forall x :: x in xs ==> x <= m
  {
    if |xs| == 1 then xs[0]
    else
      var rest := Max(xs[1..]);
      assert xs == [xs[0]] + xs[1..];
      if xs[0] >= rest then xs[0] else rest
  }

  lemma {:induction false} SumBetween(xs: seq<real>, lo: real, hi: real)
    requires forall x :: x in xs ==> lo <= x <= hi
    ensures (|xs| as real) * lo <= Sum(xs) <= (|xs| as real) * hi
  {
    if xs != [] {
      assert xs[0] in xs;
      assert forall x :: x in xs[1..] ==> x in xs;
      SumBetween(xs[1..], lo, hi);
      assert (|xs| as real) * lo == ((|xs| - 1) as real) * lo + lo;
      assert (|xs| as real) * hi == ((|xs| - 1) as real) * hi + hi;
    }
  }

  lemma QuotientBetween(total: real, n: real, lo: real, hi: real)
    requires n > 0.0 && n * lo <= total <= n * hi
    ensures lo <= total / n <= hi
  {
    var q := total / n;
    assert q * n == total;
  }

  /** The average of a non-empty sample list lies between its minimum and maximum. */
  lemma AverageBetween(xs: seq<real>)
    requires |xs| > 0
    ensures Min(xs) <= Sum(xs) / (|xs| as real) <= Max(xs)
  {
    AverageWithin(xs, Min(xs), Max(xs));
  }

  lemma AverageWithin(xs: seq<real>, lo: real, hi: real)
    requires |xs| > 0
    requires forall x :: x in xs ==> lo <= x <= hi
    ensures lo <= Sum(xs) / (|xs| as real) <= hi
  {
    SumBetween(xs, lo, hi);
    QuotientBetween(Sum(xs), |xs| as real, lo, hi);
  }

  /** `avg > t` compares the sum with `t` times the count, as the average check does. */
  lemma AverageAbove(total: real, n: real, t: real)
    requires n > 0.0
    ensures total / n > t <==> total > t * n
  {
    var q := total / n;
    assert q * n == total;
    if q > t {
      assert q * n > t * n;
    }
  }

  /** The direction of `AverageAbove` that the reports need. */
  lemma QuotientAbove(total: real, n: real, t: real)
    requires n > 0.0 && total > t * n
    ensures total / n > t
  {
    AverageAbove(total, n, t);
  }

  /** The stuck rule: at least `window` samples, average above 80%, minimum above 50%. */
  predicate IsStuck(seen: seq<Process>, pid: int, window: int) {
    var values := Samples(seen, pid);
    |values| > 0 && |values| >= window && Sum(values) > CpuCritical * (|values| as real) && Min(values) > CpuWarning
  }

  /** The dictionary reported for a stuck pid (percentages exact, not rounded). */
  datatype StuckReport = StuckReport(
    pid: int, name: string, avgCpu: real, minCpu: real, maxCpu: real,
    user: Option<string>, command: Option<string>, durationSnapshots: nat)

  function ReportOf(seen: seq<Process>, pid: int): StuckReport
    requires Sightings(seen, pid) != []
  {
    var info := HistoryOf(seen, pid);
    var values := info.cpuValues;
    StuckReport(pid, info.name, Sum(values) / (|values| as real), Min(values), Max(values),
      info.user, info.command, |values|)
  }

  /** The second loop: one report per stuck pid, in the order of `pids`. */
  function StuckReports(seen: seq<Process>, pids: seq<int>, window: int): seq<StuckReport> {
    if pids == [] then []
    else
      var pid := pids[|pids| - 1];
      StuckReports(seen, pids[..|pids| - 1], window) +
      (if IsStuck(seen, pid, window) then [ReportOf(seen, pid)] else [])
  }

  /** The records of the snapshots `detect_stuck_processes` inspects. */
  function RecentRecords(snapshots: seq<seq<Process>>, window: int): seq<Process> {
    Flatten(snapshots[RecentStart(|snapshots|, window)..])
  }

  function DetectStuck(snapshots: seq<seq<Process>>, window: int): seq<StuckReport> {
    if |snapshots| < window then []
    else
      var seen := RecentRecords(snapshots, window);
      StuckReports(seen, SeenPids(seen), window)
  }

  function ReportPid(r: StuckReport): int {
    r.pid
  }

  /** Every report is the report of a stuck pid from `pids`. */
  lemma {:induction false} StuckReportsSound(seen: seq<Process>, pids: seq<int>, window: int)
    ensures forall r :: r in StuckReports(seen, pids, window) ==>
      r.pid in pids && IsStuck(seen, r.pid, window) && r == ReportOf(seen, r.pid)
  {
    if pids != [] {
      var init := pids[..|pids| - 1];
      StuckReportsSound(seen, init, window);
      assert forall pid :: pid in init ==> pid in pids;
    }
  }

  /** Every stuck pid from `pids` is reported. */
  lemma {:induction false} StuckReportsComplete(seen: seq<Process>, pids: seq<int>, window: int)
    ensures forall pid :: pid in pids && IsStuck(seen, pid, window) ==> ReportOf(seen, pid) in StuckReports(seen, pids, window)
  {
    if pids != [] {
      var init := pids[..|pids| - 1];
      var last := pids[|pids| - 1];
      assert pids == init + [last];
      StuckReportsComplete(seen, init, window);
    }
  }

  /** Distinct pids give reports with distinct pids. */
  lemma {:induction false} StuckReportsDistinct(seen: seq<Process>, pids: seq<int>, window: int)
    requires Distinct(pids)
    ensures Distinct(Map(StuckReports(seen, pids, window), ReportPid))
  {
    if pids != [] {
      var init := pids[..|pids| - 1];
      var last := pids[|pids| - 1];
      assert pids == init + [last];
      assert Distinct(init);
      StuckReportsDistinct(seen, init, window);
      StuckReportsSound(seen, init, window);
      var prev := StuckReports(seen, init, window);
      var extra := if IsStuck(seen, last, window) then [ReportOf(seen, last)] else [];
      assert Map(prev + extra, ReportPid) == Map(prev, ReportPid) + Map(extra, ReportPid);
      forall i | 0 <= i < |prev| ensures prev[i].pid != last {
        assert prev[i] in prev;
      }
    }
  }

  /** A report's fields come from the samples and the first sighting of its pid. */
  lemma ReportFields(seen: seq<Process>, pid: int, window: int)
    requires IsStuck(seen, pid, window)
    ensures var r := ReportOf(seen, pid); var values := Samples(seen, pid);
      && r.pid == pid
      && r.durationSnapshots == |values| >= window
      && r.minCpu == Min(values) > CpuWarning
      && r.maxCpu == Max(values)
      && r.name == Sightings(seen, pid)[0].name
      && r.user == Sightings(seen, pid)[0].user
      && r.command == Sightings(seen, pid)[0].command
  {
  }

  /** A report's average lies between its minimum and maximum and exceeds 80%. */
  lemma ReportAverage(seen: seq<Process>, pid: int, window: int)
    requires IsStuck(seen, pid, window)
    ensures var r := ReportOf(seen, pid);
      r.minCpu <= r.avgCpu <= r.maxCpu && r.avgCpu > CpuCritical
  {
    var values := Samples(seen, pid);
    var r := ReportOf(seen, pid);
    assert r.avgCpu == Sum(values) / (|values| as real);
    assert r.minCpu == Min(values) && r.maxCpu == Max(values);
    SampleAverage(values);
  }

  lemma SampleAverage(values: seq<real>)
    requires |values| > 0 && Sum(values) > CpuCritical * (|values| as real)
    ensures Min(values) <= Sum(values) / (|values| as real) <= Max(values)
    ensures Sum(values) / (|values| as real) > CpuCritical
  {
    QuotientAbove(Sum(values), |values| as real, CpuCritical);
    AverageBetween(values);
  }

  /**
   * What `detect_stuck_processes` promises: nothing with fewer snapshots than the
   * window; otherwise, over the records of the last `window` snapshots, a report
   * exactly for each stuck pid, once each, whose values come from its samples and
   * whose identity comes from its first sighting.
   */
  lemma StuckDetection(snapshots: seq<seq<Process>>, window: int)
    ensures |snapshots| < window ==> DetectStuck(snapshots, window) == []
    ensures var seen := RecentRecords(snapshots, window);
      var result := DetectStuck(snapshots, window);
      |snapshots| >= window ==>
        (forall pid :: IsStuck(seen, pid, window) ==> ReportOf(seen, pid) in result) &&
        Distinct(Map(result, ReportPid)) &&
        (forall r :: r in result ==>
          && IsStuck(seen, r.pid, window)
          && r.durationSnapshots == |Samples(seen, r.pid)|
          && r.durationSnapshots >= window
          && r.minCpu == Min(Samples(seen, r.pid))
          && r.maxCpu == Max(Samples(seen, r.pid))
          && r.minCpu <= r.avgCpu <= r.maxCpu
          && r.avgCpu > CpuCritical && r.minCpu > CpuWarning
          && r.name == Sightings(seen, r.pid)[0].name
          && r.user == Sightings(seen, r.pid)[0].user
          && r.command == Sightings(seen, r.pid)[0].command)
  {
    if |snapshots| >= window {
      var seen := RecentRecords(snapshots, window);
      var result := DetectStuck(snapshots, window);
      SeenPidsExact(seen);
      StuckReportsSound(seen, SeenPids(seen), window);
      StuckReportsComplete(seen, SeenPids(seen), window);
      StuckReportsDistinct(seen, SeenPids(seen), window);
      forall r | r in result
        ensures r == ReportOf(seen, r.pid) && IsStuck(seen, r.pid, window)
      {
      }
      forall r | r in result && IsStuck(seen, r.pid, window)
        ensures r.durationSnapshots == |Samples(seen, r.pid)| >= window
        ensures r.minCpu == Min(Samples(seen, r.pid)) && r.maxCpu == Max(Samples(seen, r.pid))
        ensures r.minCpu <= r.avgCpu <= r.maxCpu && r.avgCpu > CpuCritical && r.minCpu > CpuWarning
        ensures r.name == Sightings(seen, r.pid)[0].name
        ensures r.user == Sightings(seen, r.pid)[0].user
        ensures r.command == Sightings(seen, r.pid)[0].command
      {
        ReportFields(seen, r.pid, window);
        ReportAverage(seen, r.pid, window);
      }
    }
  }

  /** One inner-loop iteration: register a new pid, then append the CPU sample. */
  method RecordProcess(history0: map<int, History>, order0: seq<int>, proc: Process)
    returns (history: map<int, History>, order: seq<int>)
    ensures history == Record(history0, proc)
    ensures order == if proc.pid in history0 then order0 else order0 + [proc.pid]
  {
    history, order := history0, order0;
    if proc.pid !in history {
      history := history[proc.pid := History(proc.name, [], proc.user, proc.command)];
      order := order + [proc.pid];
    }
    var entry := history[proc.pid];
    history := history[proc.pid := entry.(cpuValues := entry.cpuValues + [CpuOf(proc)])];
  }

  /** The inner loop: record every process of one snapshot. */
  method RecordSnapshot(ghost before: seq<Process>, procs: seq<Process>, history0: map<int, History>, order0: seq<int>)
    returns (history: map<int, History>, order: seq<int>)
    requires HistoryInv(before, history0, order0)
    ensures HistoryInv(before + procs, history, order)
  {
    history, order := history0, order0;
    assert before + procs[..0] == before;
    var j := 0;
    while j < |procs|
      invariant 0 <= j <= |procs|
      invariant HistoryInv(before + procs[..j], history, order)
    {
      assert procs[..j + 1] == procs[..j] + [procs[j]];
      assert before + procs[..j + 1] == (before + procs[..j]) + [procs[j]];
      RecordStep(before + procs[..j], history, order, procs[j]);
      history, order := RecordProcess(history, order, procs[j]);
      j := j + 1;
    }
    assert procs[..j] == procs;
  }

  /** The outer loop: `pid_cpu_history` and its key order over all recent snapshots. */
  method CollectHistory(recent: seq<seq<Process>>) returns (history: map<int, History>, order: seq<int>)
    ensures HistoryInv(Flatten(recent), history, order)
  {
    history := map[];
    order := [];
    var i := 0;
    while i < |recent|
      invariant 0 <= i <= |recent|
      invariant HistoryInv(Flatten(recent[..i]), history, order)
    {
      assert recent[..i + 1][..i] == recent[..i];
      history, order := RecordSnapshot(Flatten(recent[..i]), recent[i], history, order);
      i := i + 1;
    }
    assert recent[..i] == recent;
  }

  /** One iteration of the second loop: the report for `pid`, if it is stuck. */
  method CheckPid(ghost seen: seq<Process>, pid: int, info: History, window: int) returns (found: seq<StuckReport>)
    requires Sightings(seen, pid) != [] && info == HistoryOf(seen, pid)
    ensures found == if IsStuck(seen, pid, window) then [ReportOf(seen, pid)] else []
  {
    found := [];
    var values := info.cpuValues;
    if |values| >= window {
      var avg := Sum(values) / (|values| as real);
      var minCpu := Min(values);
      AverageAbove(Sum(values), |values| as real, CpuCritical);
      if avg > CpuCritical && minCpu > CpuWarning {
        found := [StuckReport(pid, info.name, avg, minCpu, Max(values), info.user, info.command, |values|)];
      }
    }
  }

  method DetectStuckProcesses(snapshots: seq<seq<Process>>, window: int) returns (stuck: seq<StuckReport>)
    ensures stuck == DetectStuck(snapshots, window)
  {
    if |snapshots| < window {
      return [];
    }
    var recent := snapshots[RecentStart(|snapshots|, window)..];
    var history, order := CollectHistory(recent);
    ghost var seen := Flatten(recent);
    stuck := [];
    var k := 0;
    while k < |order|
      invariant 0 <= k <= |order|
      invariant stuck == StuckReports(seen, order[..k], window)
    {
      var pid := order[k];
      var found := CheckPid(seen, pid, history[pid], window);
      stuck := stuck + found;
      assert order[..k + 1][..k] == order[..k];
      k := k + 1;
    }
    assert order[..k] == order;
  }
}

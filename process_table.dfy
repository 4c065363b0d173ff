/**
 * The process table controller: sort column and direction with
 * toggle-on-reclick, a search term matched against the name (ignoring case) or
 * the PID's decimal form, an in-place sort whose comparator reads missing
 * values as 0, truncation to the first 20 rows, and single-row expansion.
 */
module ProcessTable {
  import opened Wrappers
  import opened Strings
  import opened Seqs
  import opened Records

  datatype Column = Pid | Name | CpuPercent | MemoryPercent | Status
  datatype Direction = Asc | Desc

  /** The other direction. */
  function Flip(d: Direction): (r: Direction)
    ensures r != d
  {
    if d == Asc then Desc else Asc
  }

  const MaxRows: nat := 20

  // ---------------------------------------------------------------------------
  // Status colour
  // ---------------------------------------------------------------------------

  const Red: string := "#ff4444"
  const Amber: string := "#ffaa00"
  const Green: string := "#00ff88"

  /** Row colour from CPU and memory percentages; every boundary is strict. */
  function StatusColor(cpu: real, mem: real): (c: string)
    ensures c == Red <==> cpu > 80.0 || mem > 20.0
    ensures c == Amber <==> !(cpu > 80.0 || mem > 20.0) && (cpu > 50.0 || mem > 10.0)
    ensures c == Green <==> cpu <= 50.0 && mem <= 10.0
  {
    if cpu > 80.0 || mem > 20.0 then Red
    else if cpu > 50.0 || mem > 10.0 then Amber
    else Green
  }

  /** A process at a threshold exactly is not yet in the next band. */
  lemma StatusColorAtBoundaries()
    ensures StatusColor(80.0, 20.0) == Amber
    ensures StatusColor(50.0, 10.0) == Green
    ensures StatusColor(80.5, 0.0) == Red
  {
  }

  // ---------------------------------------------------------------------------
  // Search filter
  // ---------------------------------------------------------------------------

  /** The name contains the term ignoring case, or the PID's decimal form contains it. */
  predicate Matches(p: Process, term: string) {
    Includes(ToLower(p.name), ToLower(term)) || Includes(Decimal(p.pid), term)
  }

  /** `(processes?.processes || []).filter(...)`. */
  function FilterRows(processes: Option<seq<Process>>, term: string): (r: seq<Process>)
    ensures processes == None ==> r == []
  {
    Filter(processes.GetOr([]), p => Matches(p, term))
  }

  /** The filter keeps exactly the matching processes, in their original order. */
  lemma FilterRowsExact(ps: seq<Process>, term: string)
    ensures forall p :: p in FilterRows(Some(ps), term) <==> p in ps && Matches(p, term)
    ensures IsSubsequence(FilterRows(Some(ps), term), ps)
  {
    FilterIsSubsequence(ps, p => Matches(p, term));
  }

  /** An empty search term keeps every process. */
  lemma EmptyTermKeepsAll(ps: seq<Process>)
    ensures FilterRows(Some(ps), "") == ps
  {
    forall i | 0 <= i < |ps| ensures Matches(ps[i], "") {
      IncludesEmpty(ToLower(ps[i].name));
    }
    FilterKeepsAll(ps, p => Matches(p, ""));
  }

  /** The term "123" finds PID 123, PID 1234 and a process named "abc123". */
  lemma SearchByPidOrName(a: Process, b: Process, c: Process)
    requires a.pid == 123 && b.pid == 1234 && c.pid == 999 && c.name == "abc123"
    ensures Matches(a, "123") && Matches(b, "123") && Matches(c, "123")
  {
    assert Decimal(123) == "123";
    assert Decimal(1234) == "1234";
    assert StartsWith(Decimal(1234), "123");
    assert ToLower("abc123") == "abc123";
    assert ToLower("123") == "123";
    assert "abc123"[1..] == "bc123" && "bc123"[1..] == "c123" && "c123"[1..] == "123";
    assert StartsWith("123", "123");
  }

  // ---------------------------------------------------------------------------
  // Sort comparator
  // ---------------------------------------------------------------------------

  /** A cell as the comparator sees it after `a[sortBy] || 0`. */
  datatype SortValue = Num(x: real) | Text(s: string)

  /** Missing numbers read as 0; the empty string is falsy and reads as 0 as well. */
  function SortValueOf(p: Process, col: Column): SortValue {
    match col
    case Pid => Num(p.pid as real)
    case Name => if p.name == "" then Num(0.0) else Text(p.name)
    case CpuPercent => Num(CpuOf(p))
    case MemoryPercent => Num(MemOf(p))
    case Status => var st := p.status.GetOr(""); if st == "" then Num(0.0) else Text(st)
  }

  /** JavaScript's `>` between two strings: code-unit lexicographic order. */
  function TextGreater(s: string, t: string): bool
    decreases |s|
  {
    if |s| == 0 then false
    else if |t| == 0 then true
    else if s[0] != t[0] then s[0] > t[0]
    else TextGreater(s[1..], t[1..])
  }

  /**
   * JavaScript's `>` between two comparator values. A number compared with a
   * non-numeric string compares with NaN and is false both ways.
   */
  function Greater(a: SortValue, b: SortValue): bool {
    match (a, b)
    case (Num(x), Num(y)) => x > y
    case (Text(s), Text(t)) => TextGreater(s, t)
    case _ => false
  }

  /** The comparator passed to `sort`; it never returns 0. */
  function Compare(a: Process, b: Process, col: Column, dir: Direction): (r: int)
    ensures r == 1 || r == -1
    ensures dir == Asc ==> (r == 1 <==> Greater(SortValueOf(a, col), SortValueOf(b, col)))
    ensures dir == Desc ==> (r == 1 <==> Greater(SortValueOf(b, col), SortValueOf(a, col)))
  {
    var av, bv := SortValueOf(a, col), SortValueOf(b, col);
    if dir == Asc then (if Greater(av, bv) then 1 else -1)
    else (if Greater(bv, av) then 1 else -1)
  }

  /** Equal keys: each of the two is reported as coming first, so their order is not promised. */
  lemma CompareEqualKeys(a: Process, b: Process, col: Column, dir: Direction)
    requires SortValueOf(a, col) == SortValueOf(b, col)
    ensures Compare(a, b, col, dir) == -1 && Compare(b, a, col, dir) == -1
  {
    TextGreaterIrreflexive(if SortValueOf(a, col).Text? then SortValueOf(a, col).s else "");
  }

  lemma {:induction false} TextGreaterIrreflexive(s: string)
    ensures !TextGreater(s, s)
  {
    if |s| > 0 {
      TextGreaterIrreflexive(s[1..]);
    }
  }

  lemma {:induction false} TextGreaterAsymmetric(s: string, t: string)
    ensures TextGreater(s, t) ==> !TextGreater(t, s)
    decreases |s|
  {
    if |s| > 0 && |t| > 0 && s[0] == t[0] {
      TextGreaterAsymmetric(s[1..], t[1..]);
    }
  }

  lemma {:induction false} TextGreaterTotal(s: string, t: string)
    ensures s == t || TextGreater(s, t) || TextGreater(t, s)
    decreases |s|
  {
    if |s| > 0 && |t| > 0 && s[0] == t[0] {
      TextGreaterTotal(s[1..], t[1..]);
      assert s == [s[0]] + s[1..] && t == [t[0]] + t[1..];
    }
  }

  lemma {:induction false} TextGreaterTransitive(s: string, t: string, u: string)
    requires TextGreater(s, t) && TextGreater(t, u)
    ensures TextGreater(s, u)
    decreases |s|
  {
    if |u| > 0 && s[0] == t[0] && t[0] == u[0] {
      TextGreaterTransitive(s[1..], t[1..], u[1..]);
    }
  }

  lemma GreaterAsymmetric(a: SortValue, b: SortValue)
    ensures Greater(a, b) ==> !Greater(b, a)
  {
    if a.Text? && b.Text? {
      TextGreaterAsymmetric(a.s, b.s);
    }
  }

  /** The comparator says "after" in at most one of the two orders. */
  lemma CompareAsymmetric(a: Process, b: Process, col: Column, dir: Direction)
    ensures Compare(a, b, col, dir) == 1 ==> Compare(b, a, col, dir) == -1
  {
    GreaterAsymmetric(SortValueOf(a, col), SortValueOf(b, col));
  }

  /** All values of the column are numbers, or all are strings. */
  predicate Homogeneous(s: seq<Process>, col: Column) {
    (forall i :: 0 <= i < |s| ==> SortValueOf(s[i], col).Num?) ||
    (forall i :: 0 <= i < |s| ==> SortValueOf(s[i], col).Text?)
  }

  /** PID, CPU and memory columns are always numbers. */
  lemma NumericColumnsHomogeneous(s: seq<Process>, col: Column)
    requires col in {Pid, CpuPercent, MemoryPercent}
    ensures Homogeneous(s, col)
  {
  }

  /** Between values of one kind, "not after" is transitive. */
  lemma NotAfterTransitive(a: Process, b: Process, c: Process, col: Column, dir: Direction)
    requires Homogeneous([a, b, c], col)
    requires Compare(a, b, col, dir) == -1 && Compare(b, c, col, dir) == -1
    ensures Compare(a, c, col, dir) == -1
  {
    var av, bv, cv := SortValueOf(a, col), SortValueOf(b, col), SortValueOf(c, col);
    assert av == SortValueOf([a, b, c][0], col);
    assert bv == SortValueOf([a, b, c][1], col);
    assert cv == SortValueOf([a, b, c][2], col);
    if av.Text? {
      var x, y, z := av.s, bv.s, cv.s;
      TextGreaterTotal(x, y);
      TextGreaterTotal(y, z);
      TextGreaterAsymmetric(x, z);
      TextGreaterAsymmetric(z, x);
      if dir == Asc {
        if x != y && y != z {
          TextGreaterTransitive(z, y, x);
        }
      } else {
        if x != y && y != z {
          TextGreaterTransitive(x, y, z);
        }
      }
    }
  }

  /** Every two neighbours are in comparator order. */
  predicate AdjacentOrdered(s: seq<Process>, col: Column, dir: Direction) {
    forall k :: 0 <= k < |s| - 1 ==> Compare(s[k], s[k + 1], col, dir) == -1
  }

  /** Every pair is in comparator order: non-decreasing for Asc, non-increasing for Desc. */
  predicate Ordered(s: seq<Process>, col: Column, dir: Direction) {
    forall i, j :: 0 <= i < j < |s| ==> Compare(s[i], s[j], col, dir) == -1
  }

  lemma {:induction false} AdjacentOrderedIsOrdered(s: seq<Process>, col: Column, dir: Direction)
    requires Homogeneous(s, col) && AdjacentOrdered(s, col, dir)
    ensures Ordered(s, col, dir)
  {
    forall i, j | 0 <= i < j < |s| ensures Compare(s[i], s[j], col, dir) == -1 {
      OrderedFrom(s, col, dir, i, j);
    }
  }

  lemma {:induction false} OrderedFrom(s: seq<Process>, col: Column, dir: Direction, i: nat, j: nat)
    requires Homogeneous(s, col) && AdjacentOrdered(s, col, dir)
    requires i < j < |s|
    ensures Compare(s[i], s[j], col, dir) == -1
    decreases j - i
  {
    if j > i + 1 {
      OrderedFrom(s, col, dir, i, j - 1);
      assert Homogeneous([s[i], s[j - 1], s[j]], col) by {
        if forall k :: 0 <= k < |s| ==> SortValueOf(s[k], col).Num? {
          assert SortValueOf(s[i], col).Num? && SortValueOf(s[j - 1], col).Num? && SortValueOf(s[j], col).Num?;
        } else {
          assert SortValueOf(s[i], col).Text? && SortValueOf(s[j - 1], col).Text? && SortValueOf(s[j], col).Text?;
        }
      }
      NotAfterTransitive(s[i], s[j - 1], s[j], col, dir);
    }
  }

  /** On a numeric column a sorted list is monotone in that number. */
  lemma OrderedNumeric(s: seq<Process>, col: Column, dir: Direction, i: nat, j: nat)
    requires Ordered(s, col, dir) && i < j < |s|
    requires SortValueOf(s[i], col).Num? && SortValueOf(s[j], col).Num?
    ensures dir == Asc ==> SortValueOf(s[i], col).x <= SortValueOf(s[j], col).x
    ensures dir == Desc ==> SortValueOf(s[i], col).x >= SortValueOf(s[j], col).x
  {
    assert Compare(s[i], s[j], col, dir) == -1;
  }

  /**
   * `filteredProcesses.sort(comparator)`, in place. The engine's algorithm is
   * not fixed; this is an insertion sort that moves a row left while the
   * comparator puts it before its left neighbour.
   */
  method SortRows(a: array<Process>, col: Column, dir: Direction)
    modifies a
    ensures multiset(a[..]) == multiset(old(a[..]))
    ensures AdjacentOrdered(a[..], col, dir)
  {
    var i := 0;
    while i < a.Length
      invariant 0 <= i <= a.Length
      invariant forall k :: 0 <= k < i - 1 ==> Compare(a[k], a[k + 1], col, dir) == -1
      invariant multiset(a[..]) == multiset(old(a[..]))
    {
      var j := i;
      while j > 0 && Compare(a[j - 1], a[j], col, dir) == 1
        invariant 0 <= j <= i
        invariant forall k :: 0 <= k < j - 1 ==> Compare(a[k], a[k + 1], col, dir) == -1
        invariant forall k :: j < k < i ==> Compare(a[k], a[k + 1], col, dir) == -1
        invariant j < i ==> Compare(a[j], a[j + 1], col, dir) == -1
        invariant 0 < j < i ==> Compare(a[j - 1], a[j + 1], col, dir) == -1
        invariant multiset(a[..]) == multiset(old(a[..]))
      {
        CompareAsymmetric(a[j - 1], a[j], col, dir);
        SwapWithLeft(a, j);
        j := j - 1;
      }
      i := i + 1;
    }
  }

  /** Exchanges `a[j - 1]` and `a[j]`. */
  method SwapWithLeft(a: array<Process>, j: int)
    requires 0 < j < a.Length
    modifies a
    ensures a[j - 1] == old(a[j]) && a[j] == old(a[j - 1])
    ensures forall k :: 0 <= k < a.Length && k != j - 1 && k != j ==> a[k] == old(a[k])
    ensures multiset(a[..]) == multiset(old(a[..]))
  {
    a[j - 1], a[j] := a[j], a[j - 1];
  }

  /** `slice(0, 20)`. */
  function TopRows(sorted: seq<Process>): (r: seq<Process>)
    ensures |r| <= MaxRows && |r| <= |sorted|
    ensures |r| == MaxRows || |r| == |sorted|
    ensures r == sorted[..|r|]
  {
    FirstN(sorted, MaxRows)
  }

  /** The rows that get a details row: those whose pid is the expanded one. */
  function DetailRows(shown: seq<Process>, expandedPid: Option<int>): seq<Process> {
    Filter(shown, (p: Process) => expandedPid == Some(p.pid))
  }

  predicate DistinctPids(s: seq<Process>) {
    forall i, j :: 0 <= i < j < |s| ==> s[i].pid != s[j].pid
  }

  /** With distinct pids at most one details row is rendered, and none when nothing is expanded. */
  lemma {:induction false} AtMostOneDetailsRow(shown: seq<Process>, expandedPid: Option<int>)
    requires DistinctPids(shown)
    ensures |DetailRows(shown, expandedPid)| <= 1
    ensures expandedPid == None ==> DetailRows(shown, expandedPid) == []
  {
    if shown != [] {
      AtMostOneDetailsRow(shown[1..], expandedPid);
      if expandedPid == Some(shown[0].pid) {
        var f := (p: Process) => expandedPid == Some(p.pid);
        forall i | 0 <= i < |shown[1..]| ensures !f(shown[1..][i]) {
          assert shown[1..][i] == shown[i + 1];
        }
        NoneKept(shown[1..], f);
      }
    }
  }

  lemma {:induction false} NoneKept<T>(s: seq<T>, keep: T -> bool)
    requires forall i :: 0 <= i < |s| ==> !keep(s[i])
    ensures Filter(s, keep) == []
  {
    if s != [] {
      NoneKept(s[1..], keep);
    }
  }

  /** The controller's state: the four `useState` slots. */
  class TableState {
    var sortBy: Column
    var sortDir: Direction
    var searchTerm: string
    var expandedPid: Option<int>

    constructor ()
      ensures sortBy == CpuPercent && sortDir == Desc
      ensures searchTerm == "" && expandedPid == None
    {
      sortBy := CpuPercent;
      sortDir := Desc;
      searchTerm := "";
      expandedPid := None;
    }

    /** A click on a column header. */
    method HandleSort(column: Column)
      modifies this
      ensures sortBy == column
      ensures old(sortBy) == column ==> sortDir == Flip(old(sortDir))
      ensures old(sortBy) != column ==> sortDir == Desc
      ensures searchTerm == old(searchTerm) && expandedPid == old(expandedPid)
    {
      if sortBy == column {
        sortDir := if sortDir == Asc then Desc else Asc;
      } else {
        sortBy := column;
        sortDir := Desc;
      }
    }

    /** Typing into the search box. */
    method SetSearchTerm(term: string)
      modifies this
      ensures searchTerm == term
      ensures sortBy == old(sortBy) && sortDir == old(sortDir) && expandedPid == old(expandedPid)
    {
      searchTerm := term;
    }

    /** A click on a row: collapse it if expanded, otherwise make it the only expanded row. */
    method ClickRow(pid: int)
      modifies this
      ensures old(expandedPid) == Some(pid) ==> expandedPid == None
      ensures old(expandedPid) != Some(pid) ==> expandedPid == Some(pid)
      ensures sortBy == old(sortBy) && sortDir == old(sortDir) && searchTerm == old(searchTerm)
    {
      expandedPid := if expandedPid == Some(pid) then None else Some(pid);
    }

    /**
     * The filter, sort and slice pipeline of one render: `sorted` is
     * `filteredProcesses` after its in-place sort, `shown` is `topProcesses`.
     */
    method VisibleRows(processes: Option<seq<Process>>) returns (sorted: seq<Process>, shown: seq<Process>)
      ensures multiset(sorted) == multiset(FilterRows(processes, searchTerm))
      ensures |sorted| == |FilterRows(processes, searchTerm)|
      ensures AdjacentOrdered(sorted, sortBy, sortDir)
      ensures Homogeneous(sorted, sortBy) ==> Ordered(sorted, sortBy, sortDir)
      ensures shown == TopRows(sorted)
    {
      var filtered := FilterRows(processes, searchTerm);
      var a := new Process[|filtered|](i requires 0 <= i < |filtered| => filtered[i]);
      assert a[..] == filtered;
      SortRows(a, sortBy, sortDir);
      sorted := a[..];
      assert |sorted| == |multiset(sorted)| == |multiset(filtered)| == |filtered|;
      if Homogeneous(sorted, sortBy) {
        AdjacentOrderedIsOrdered(sorted, sortBy, sortDir);
      }
      shown := sorted[..if |sorted| < MaxRows then |sorted| else MaxRows];
    }
  }

  /** Re-clicking the sort column twice restores the original direction. */
  method SortTwiceRestores(t: TableState, column: Column)
    requires t.sortBy == column
    modifies t
    ensures t.sortBy == column && t.sortDir == old(t.sortDir)
  {
    t.HandleSort(column);
    t.HandleSort(column);
  }

  /** Rows 5 then 7: only 7 is expanded; clicking 7 again collapses it. */
  method ExpandSequence(t: TableState) returns (afterSecond: Option<int>)
    modifies t
    ensures afterSecond == Some(7)
    ensures t.expandedPid == None
  {
    t.ClickRow(5);
    t.ClickRow(7);
    afterSecond := t.expandedPid;
    t.ClickRow(7);
  }
}

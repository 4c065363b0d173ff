/**
 * The backend's HTTP handlers over the sorted snapshot listing: the latest
 * snapshot, the name drift between the last two snapshots and the last-five
 * timeline. Each snapshot file is its name with its parsed contents.
 */
module BackendApi {
  import opened Wrappers
  import opened Seqs
  import opened Strings
  import opened Records
  import Dashboard

  /** A parsed snapshot: its `processes` list, if present, and its other top-level fields. */
  datatype SnapshotData = SnapshotData(processes: Option<seq<Process>>, other: map<string, Field>)

  datatype SnapshotFile = SnapshotFile(fileName: string, data: SnapshotData)

  // ---------------------------------------------------------------------------
  // /latest-snapshot
  // ---------------------------------------------------------------------------

  const NoSnapshotsMessage: string := "No snapshots found"

  datatype LatestResponse = NoSnapshots(error: string) | Latest(data: SnapshotData)

  /** The contents of the last file in sorted order, or the "No snapshots found" body. */
  function LatestSnapshot(files: seq<SnapshotFile>): (r: LatestResponse)
    ensures r.NoSnapshots? <==> files == []
    ensures r.NoSnapshots? ==> r.error == NoSnapshotsMessage
    ensures r.Latest? ==> r.data == files[|files| - 1].data
  {
    if files == [] then NoSnapshots(NoSnapshotsMessage) else Latest(files[|files| - 1].data)
  }

  /**
   * `ProcessMonitor.get_current_processes`: the latest snapshot's `processes`,
   * or [] when there is no snapshot or the key is missing.
   */
  function CurrentProcesses(files: seq<SnapshotFile>): (ps: seq<Process>)
    ensures files == [] ==> ps == []
    ensures LatestSnapshot(files).Latest? ==> ps == LatestSnapshot(files).data.processes.GetOr([])
  {
    if files == [] then [] else files[|files| - 1].data.processes.GetOr([])
  }

  // ---------------------------------------------------------------------------
  // /drift
  // ---------------------------------------------------------------------------

  const NeedTwoMessage: string := "Need at least 2 snapshots"

  /**
   * The `/drift` outcome: the error body, the two name lists, or an uncaught
   * `KeyError` when a snapshot has no `processes` (an HTTP 500 response).
   */
  datatype DriftResponse = DriftError(error: string) | Drift(added: seq<string>, removed: seq<string>) | ServerError

  /** `{p["name"] for p in processes}`. */
  function NamesOf(processes: seq<Process>): set<string> {
    set p | p in processes :: p.name
  }

  function Elements(xs: seq<string>): set<string> {
    set x | x in xs
  }

  /** `list(s)`: every element once, in an order Python does not promise. */
  method SetToList(s: set<string>) returns (xs: seq<string>)
    ensures Elements(xs) == s
    ensures Distinct(xs)
  {
    xs := [];
    var rest := s;
    while rest != {}
      invariant Elements(xs) + rest == s
      invariant Elements(xs) !! rest
      invariant Distinct(xs)
      decreases |rest|
    {
      var x :| x in rest;
      xs := xs + [x];
      rest := rest - {x};
    }
  }

  method DriftResult(files: seq<SnapshotFile>) returns (r: DriftResponse)
    ensures r.DriftError? <==> |files| < 2
    ensures r.DriftError? ==> r.error == NeedTwoMessage
    ensures r.ServerError? <==>
      |files| >= 2 && (files[|files| - 2].data.processes.None? || files[|files| - 1].data.processes.None?)
    ensures r.Drift? ==>
      var oldNames := NamesOf(files[|files| - 2].data.processes.value);
      var newNames := NamesOf(files[|files| - 1].data.processes.value);
      && Elements(r.added) == newNames - oldNames
      && Elements(r.removed) == oldNames - newNames
      && Distinct(r.added) && Distinct(r.removed)
      && (forall x :: x in r.added ==> x !in r.removed)
      && (oldNames == newNames ==> r.added == [] && r.removed == [])
  {
    if |files| < 2 {
      return DriftError(NeedTwoMessage);
    }
    var oldData := files[|files| - 2].data;
    var newData := files[|files| - 1].data;
    if oldData.processes.None? || newData.processes.None? {
      return ServerError;
    }
    var oldNames := NamesOf(oldData.processes.value);
    var newNames := NamesOf(newData.processes.value);
    var added := SetToList(newNames - oldNames);
    var removed := SetToList(oldNames - newNames);
    DriftDisjoint(oldNames, newNames, added, removed);
    NoElements(added);
    NoElements(removed);
    return Drift(added, removed);
  }

  /** A name never appears on both lists. */
  lemma DriftDisjoint(oldNames: set<string>, newNames: set<string>, added: seq<string>, removed: seq<string>)
    requires Elements(added) == newNames - oldNames && Elements(removed) == oldNames - newNames
    ensures forall x :: x in added ==> x !in removed
  {
    forall x | x in added ensures x !in removed {
      assert x in Elements(added);
    }
  }

  lemma NoElements(xs: seq<string>)
    ensures Elements(xs) == {} ==> xs == []
  {
    if xs != [] {
      assert xs[0] in Elements(xs);
    }
  }

  /** A duplicate-free list is as long as its set of elements is large. */
  lemma {:induction false} DistinctLength(xs: seq<string>)
    requires Distinct(xs)
    ensures |Elements(xs)| == |xs|
  {
    if xs != [] {
      var init := xs[..|xs| - 1];
      assert xs == init + [xs[|xs| - 1]];
      assert Elements(xs) == Elements(init) + {xs[|xs| - 1]};
      assert xs[|xs| - 1] !in Elements(init);
      DistinctLength(init);
    }
  }

  /** The JSON body the dashboard receives for each outcome. */
  function AsOutcome(r: DriftResponse): Dashboard.FetchOutcome<Dashboard.DriftPayload> {
    match r
    case DriftError(e) => Dashboard.Response(true, 200, Some(Dashboard.DriftPayload(None, None, Some(e))))
    case Drift(added, removed) => Dashboard.Response(true, 200, Some(Dashboard.DriftPayload(Some(added), Some(removed), None)))
    case ServerError => Dashboard.Response(false, 500, None)
  }

  /**
   * End to end: the dashboard's total is the size of the symmetric difference of
   * the two name sets, so the risk is LOW exactly when the sets are equal.
   */
  lemma DriftTotalIsSymmetricDifference(oldNames: set<string>, newNames: set<string>, added: seq<string>, removed: seq<string>)
    requires Elements(added) == newNames - oldNames && Elements(removed) == oldNames - newNames
    requires Distinct(added) && Distinct(removed)
    ensures var total := Dashboard.TotalChanges(Dashboard.Payload(AsOutcome(Drift(added, removed))));
      && total == |(newNames - oldNames) + (oldNames - newNames)|
      && (Dashboard.RiskOf(total) == Dashboard.Low <==> oldNames == newNames)
  {
    DistinctLength(added);
    DistinctLength(removed);
    assert (newNames - oldNames) !! (oldNames - newNames);
    if oldNames != newNames {
      if x :| x in oldNames && x !in newNames {
        assert x in oldNames - newNames;
      } else {
        var y :| y in newNames && y !in oldNames;
        assert y in newNames - oldNames;
      }
    }
  }

  // ---------------------------------------------------------------------------
  // /timeline
  // ---------------------------------------------------------------------------

  const TimelineLength: nat := 5

  /** `f.replace("snapshot_", "").replace(".json", "")`. */
  function TimeOf(fileName: string): string {
    RemoveAll(RemoveAll(fileName, "snapshot_"), ".json")
  }

  method Timeline(files: seq<string>) returns (entries: seq<TimelineEntry>)
    ensures |entries| == if |files| < TimelineLength then |files| else TimelineLength
    ensures forall i :: 0 <= i < |entries| ==>
      var f := files[|files| - |entries| + i];
      entries[i] == TimelineEntry(f, TimeOf(f))
  {
    var recent := LastN(files, TimelineLength);
    entries := [];
    var i := 0;
    while i < |recent|
      invariant 0 <= i <= |recent|
      invariant |entries| == i
      invariant forall k :: 0 <= k < i ==> entries[k] == TimelineEntry(recent[k], TimeOf(recent[k]))
    {
      var f := recent[i];
      entries := entries + [TimelineEntry(f, TimeOf(f))];
      i := i + 1;
    }
  }

  /** The characters the collector's `%Y%m%d_%H%M%S` timestamps are made of. */
  predicate IsStampChar(c: char) {
    '0' <= c <= '9' || c == '_'
  }

  /** An occurrence starts with the pattern's first character. */
  lemma OccursAtHead(s: string, pat: string, i: int)
    requires |pat| > 0 && 0 <= i < |s|
    ensures OccursAt(s, pat, i) ==> s[i] == pat[0]
  {
    if i + |pat| <= |s| {
      assert s[i..i + |pat|][0] == s[i];
    }
  }

  /**
   * For the names the collector writes, `snapshot_<stamp>.json`, the time shown
   * is the stamp itself.
   */
  lemma TimeOfSnapshotName(stamp: string)
    requires forall i :: 0 <= i < |stamp| ==> IsStampChar(stamp[i])
    ensures TimeOf("snapshot_" + stamp + ".json") == stamp
  {
    var rest := stamp + ".json";
    assert "snapshot_" + stamp + ".json" == "snapshot_" + rest;
    RemoveAllLeading("snapshot_", rest);
    forall i ensures !OccursAt(rest, "snapshot_", i) {
      if 0 <= i < |stamp| {
        OccursAtHead(rest, "snapshot_", i);
        assert rest[i] == stamp[i];
      }
    }
    RemoveAllAbsent(rest, "snapshot_");
    forall i | 0 <= i < |stamp| ensures !OccursAt(rest, ".json", i) {
      OccursAtHead(rest, ".json", i);
      assert rest[i] == stamp[i];
    }
    RemoveAllKeepsPrefix(stamp, ".json", ".json");
    RemoveAllLeading(".json", "");
    assert ".json" + "" == ".json";
    assert stamp + "" == stamp;
  }
}

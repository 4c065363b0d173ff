/**
 * The dashboard page: the drift, time, timeline and error slots that the
 * polling callbacks assign, and what the page derives from them (total
 * changes, risk level, risk colour, bar width, status line, name boxes).
 */
module Dashboard {
  import opened Wrappers
  import opened Strings
  import opened Records

  /** The `/drift` payload: lists when two snapshots exist, otherwise `{error}`. */
  datatype DriftPayload = DriftPayload(added: Option<seq<string>>, removed: Option<seq<string>>, error: Option<string>)

  /** `list?.length || 0`. */
  function LengthOrZero(list: Option<seq<string>>): (n: nat)
    ensures list == None ==> n == 0
    ensures list.Some? ==> n == |list.value|
  {
    match list
    case None => 0
    case Some(xs) => |xs|
  }

  /** `total`: the number of added plus removed names; absent lists count 0. */
  function TotalChanges(drift: Option<DriftPayload>): (n: nat)
    ensures drift == None ==> n == 0
    ensures drift.Some? ==> n == LengthOrZero(drift.value.added) + LengthOrZero(drift.value.removed)
  {
    match drift
    case None => 0
    case Some(d) => LengthOrZero(d.added) + LengthOrZero(d.removed)
  }

  /** The backend's "need two snapshots" payload counts no change. */
  lemma ErrorPayloadHasNoChanges(message: string)
    ensures TotalChanges(Some(DriftPayload(None, None, Some(message)))) == 0
    ensures RiskOf(TotalChanges(Some(DriftPayload(None, None, Some(message))))) == Low
  {
  }

  datatype Risk = Low | Medium | High

  /** The level as the page prints it. */
  function RiskName(r: Risk): string {
    match r
    case Low => "LOW"
    case Medium => "MEDIUM"
    case High => "HIGH"
  }

  /** Thresholds 0 / 1-2 / 3 and more. */
  function RiskOf(total: nat): (r: Risk)
    ensures r == Low <==> total == 0
    ensures r == Medium <==> 1 <= total <= 2
    ensures r == High <==> total >= 3
  {
    if total == 0 then Low else if total < 3 then Medium else High
  }

  /** More changes never lower the risk. */
  lemma RiskMonotone(a: nat, b: nat)
    requires a <= b
    ensures RiskOf(a) == High ==> RiskOf(b) == High
    ensures RiskOf(b) == Low ==> RiskOf(a) == Low
  {
  }

  /** Two added and one removed name give 3 changes and a HIGH risk. */
  lemma ThreeChangesAreHigh()
    ensures TotalChanges(Some(DriftPayload(Some(["a", "b"]), Some(["c"]), None))) == 3
    ensures RiskOf(3) == High
  {
  }

  const LowColor: string := "#00ff88"
  const MediumColor: string := "#ffaa00"
  const HighColor: string := "#ff4444"

  function RiskColor(r: Risk): (c: string)
    ensures r == Low <==> c == LowColor
    ensures r == Medium <==> c == MediumColor
    ensures r == High <==> c == HighColor
  {
    match r
    case Low => LowColor
    case Medium => MediumColor
    case High => HighColor
  }

  /** The width of the risk bar. */
  function BarWidth(r: Risk): (w: string)
    ensures r == Low <==> w == "30%"
    ensures r == Medium <==> w == "60%"
    ensures r == High <==> w == "90%"
  {
    match r
    case Low => "30%"
    case Medium => "60%"
    case High => "90%"
  }

  /**
   * How one `fetch` ended: no response at all, or a response with its `ok`
   * flag and the body if it parsed as JSON of the expected shape.
   */
  datatype FetchOutcome<T> = NetworkFailure | Response(ok: bool, status: int, json: Option<T>)

  /** The promise chain's verdict: a payload exactly when `res.ok` and the body parsed. */
  function Payload<T>(outcome: FetchOutcome<T>): (r: Option<T>)
    ensures r.Some? <==> outcome.Response? && outcome.ok && outcome.json.Some?
    ensures r.Some? ==> r.value == outcome.json.value
  {
    match outcome
    case NetworkFailure => None
    case Response(ok, _, json) => if ok then json else None
  }

  const DriftErrorMessage: string := "Failed to fetch drift data. Make sure the backend is running."

  /** The page's state: the four `useState` slots. */
  class DashboardState {
    var drift: Option<DriftPayload>
    var time: string
    var timeline: seq<TimelineEntry>
    var error: Option<string>

    constructor ()
      ensures drift == None && time == "" && timeline == [] && error == None
    {
      drift := None;
      time := "";
      timeline := [];
      error := None;
    }

    /**
     * The `/drift` callbacks. Success replaces `drift`, sets `time` to the local
     * clock reading `now` and clears `error`; failure sets only `error`.
     */
    method OnDrift(outcome: FetchOutcome<DriftPayload>, now: string)
      modifies this
      ensures Payload(outcome).Some? ==>
        drift == Payload(outcome) && time == now && error == None
      ensures Payload(outcome).None? ==>
        drift == old(drift) && time == old(time) && error == Some(DriftErrorMessage)
      ensures timeline == old(timeline)
    {
      var data := Payload(outcome);
      if data.Some? {
        drift := data;
        time := now;
        error := None;
      } else {
        error := Some(DriftErrorMessage);
      }
    }

    /** The `/timeline` callbacks. Success replaces `timeline`; failure changes nothing. */
    method OnTimeline(outcome: FetchOutcome<seq<TimelineEntry>>)
      modifies this
      ensures Payload(outcome).Some? ==> timeline == Payload(outcome).value
      ensures Payload(outcome).None? ==> timeline == old(timeline)
      ensures drift == old(drift) && time == old(time) && error == old(error)
    {
      var data := Payload(outcome);
      if data.Some? {
        timeline := data.value;
      }
    }
  }

  /** A drift failure followed by a drift success leaves no error on the page. */
  method RecoverAfterFailure(page: DashboardState, failed: FetchOutcome<DriftPayload>, data: DriftPayload, now: string)
    requires Payload(failed).None?
    modifies page
    ensures page.error == None && page.drift == Some(data) && page.time == now
    ensures StatusLine(page.error) == Live
  {
    page.OnDrift(failed, now);
    assert page.error == Some(DriftErrorMessage);
    page.OnDrift(Response(true, 200, Some(data)), now);
  }

  /** The status line under the title. */
  datatype Status = Live | Failing(message: string)

  function StatusLine(error: Option<string>): (s: Status)
    ensures s.Failing? <==> error.Some?
    ensures s.Failing? ==> s.message == error.value
  {
    match error
    case Some(e) => Failing(e)
    case None => Live
  }

  /** An added or removed box: the names joined by ", ", or "None". */
  function NamesBox(names: Option<seq<string>>): (text: string)
    ensures LengthOrZero(names) == 0 ==> text == "None"
    ensures LengthOrZero(names) == 1 ==> text == names.value[0]
    ensures LengthOrZero(names) > 0 ==> StartsWith(text, names.value[0])
  {
    if LengthOrZero(names) > 0 then Join(names.value, ", ") else "None"
  }

  /**
   * One more name adds ", " and that name to the end of the box. With the
   * one-name case of `NamesBox` this fixes the text of every box.
   */
  lemma NamesBoxSnoc(names: seq<string>, name: string)
    requires |names| > 0
    ensures NamesBox(Some(names + [name])) == NamesBox(Some(names)) + ", " + name
  {
    JoinSnoc(names, name, ", ");
  }

  /** Two added processes show as "a, b". */
  lemma NamesBoxExample()
    ensures NamesBox(Some(["nginx", "redis"])) == "nginx, redis"
  {
    NamesBoxSnoc(["nginx"], "redis");
    assert ["nginx"] + ["redis"] == ["nginx", "redis"];
  }

  /** The timeline panel: a placeholder, or one line per entry's time. */
  datatype TimelineView = NoSnapshotsYet | Times(times: seq<string>)

  function RenderTimeline(timeline: seq<TimelineEntry>): (v: TimelineView)
    ensures v == NoSnapshotsYet <==> timeline == []
    ensures v.Times? ==> |v.times| == |timeline|
    ensures v.Times? ==> forall i :: 0 <= i < |v.times| ==> v.times[i] == timeline[i].time
  {
    if |timeline| == 0 then NoSnapshotsYet
    else Times(seq(|timeline|, i requires 0 <= i < |timeline| => timeline[i].time))
  }
}

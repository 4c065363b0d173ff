/**
 * The alerts panel: an append-only list of dismissed PIDs that hides matching
 * alerts from every later payload, a collapsible body, and the severity colour
 * and icon lookups.
 */
module AlertsCenter {
  import opened Wrappers
  import opened Seqs

  /** One alert as the `/alerts` payload carries it; `kind` is the JSON `type`. */
  datatype Alert = Alert(pid: int, name: string, kind: string, severity: string, message: string)

  /** `(alerts?.alerts || []).filter((alert) => !dismissed.includes(alert.pid))`. */
  function VisibleAlerts(alerts: Option<seq<Alert>>, dismissed: seq<int>): (r: seq<Alert>)
    ensures alerts == None ==> r == []
    ensures forall a :: a in r ==> a.pid !in dismissed
  {
    Filter(alerts.GetOr([]), (a: Alert) => a.pid !in dismissed)
  }

  /** The visible alerts are exactly the undismissed ones, in their original order. */
  lemma VisibleExact(alerts: seq<Alert>, dismissed: seq<int>)
    ensures forall a :: a in VisibleAlerts(Some(alerts), dismissed) <==> a in alerts && a.pid !in dismissed
    ensures IsSubsequence(VisibleAlerts(Some(alerts), dismissed), alerts)
  {
    FilterIsSubsequence(alerts, (a: Alert) => a.pid !in dismissed);
  }

  /** Only the set of dismissed PIDs matters, so dismissing twice is dismissing once. */
  lemma {:induction false} VisibleDependsOnSet(alerts: Option<seq<Alert>>, d1: seq<int>, d2: seq<int>)
    requires forall x :: x in d1 <==> x in d2
    ensures VisibleAlerts(alerts, d1) == VisibleAlerts(alerts, d2)
  {
    FilterCongruent(alerts.GetOr([]), (a: Alert) => a.pid !in d1, (a: Alert) => a.pid !in d2);
  }

  lemma DismissTwiceIsOnce(alerts: Option<seq<Alert>>, dismissed: seq<int>, pid: int)
    ensures VisibleAlerts(alerts, dismissed + [pid] + [pid]) == VisibleAlerts(alerts, dismissed + [pid])
  {
    VisibleDependsOnSet(alerts, dismissed + [pid] + [pid], dismissed + [pid]);
  }

  /** Once in the dismissed list, a PID is hidden from this and every later payload. */
  lemma DismissedStaysHidden(earlier: seq<int>, later: seq<int>, alerts: Option<seq<Alert>>, pid: int)
    requires pid in earlier
    requires forall x :: x in earlier ==> x in later
    ensures forall a :: a in VisibleAlerts(alerts, later) ==> a.pid != pid
  {
  }

  /** Dismissing PID 42 twice removes its one alert exactly once from the count. */
  lemma DismissExample(other: Alert, target: Alert)
    requires target.pid == 42 && other.pid != 42
    ensures |VisibleAlerts(Some([other, target]), [42, 42])| == 1
    ensures |VisibleAlerts(Some([other, target]), [])| == 2
  {
    var s := [other, target];
    assert s[1..] == [target] && s[1..][1..] == [];
    assert VisibleAlerts(Some([target]), [42, 42]) == [];
    assert VisibleAlerts(Some([target]), []) == [target];
  }

  const CriticalColor: string := "#ff4444"
  const WarningColor: string := "#ffaa00"
  const InfoColor: string := "#00bfff"

  function SeverityColor(severity: string): (c: string)
    ensures c == CriticalColor <==> severity == "critical"
    ensures c == WarningColor <==> severity == "warning"
    ensures c == InfoColor <==> severity != "critical" && severity != "warning"
  {
    if severity == "critical" then CriticalColor
    else if severity == "warning" then WarningColor
    else InfoColor
  }

  const ZombieIcon: string := "\U{1F9DF}"
  const FireIcon: string := "\U{1F525}"
  const DiskIcon: string := "\U{1F4BE}"
  const WarningIcon: string := "\U{26A0}\U{FE0F}"
  const InfoIcon: string := "\U{2139}\U{FE0F}"

  /** The icon for an alert type; any type outside the four known ones gets the info icon. */
  function AlertIcon(kind: string): (icon: string)
    ensures kind == "zombie" <==> icon == ZombieIcon
    ensures kind == "high_cpu" <==> icon == FireIcon
    ensures kind == "high_memory" <==> icon == DiskIcon
    ensures kind == "stuck" <==> icon == WarningIcon
    ensures kind !in {"zombie", "high_cpu", "high_memory", "stuck"} <==> icon == InfoIcon
  {
    if kind == "zombie" then ZombieIcon
    else if kind == "high_cpu" then FireIcon
    else if kind == "high_memory" then DiskIcon
    else if kind == "stuck" then WarningIcon
    else InfoIcon
  }

  /** One rendered alert row. */
  datatype AlertRow = AlertRow(icon: string, color: string, alert: Alert)

  /** What the panel body shows. */
  datatype Body = Collapsed | NoActiveAlerts | Rows(rows: seq<AlertRow>)

  /** The header count and the body of one render. */
  datatype Panel = Panel(count: nat, body: Body)

  function RenderPanel(alerts: Option<seq<Alert>>, dismissed: seq<int>, expanded: bool): (p: Panel)
    ensures p.count == |VisibleAlerts(alerts, dismissed)|
    ensures p.body == Collapsed <==> !expanded
    ensures p.body == NoActiveAlerts <==> expanded && p.count == 0
    ensures p.body.Rows? ==> |p.body.rows| == p.count
    ensures p.body.Rows? ==>
      forall i :: 0 <= i < |p.body.rows| ==> p.body.rows[i].alert == VisibleAlerts(alerts, dismissed)[i]
    ensures p.body.Rows? ==>
      forall i :: 0 <= i < |p.body.rows| ==>
        p.body.rows[i].icon == AlertIcon(p.body.rows[i].alert.kind) &&
        p.body.rows[i].color == SeverityColor(p.body.rows[i].alert.severity)
  {
    var visible := VisibleAlerts(alerts, dismissed);
    var body :=
      if !expanded then Collapsed
      else if |visible| == 0 then NoActiveAlerts
      else Rows(Map(visible, (a: Alert) => AlertRow(AlertIcon(a.kind), SeverityColor(a.severity), a)));
    Panel(|visible|, body)
  }

  /** The component's state: the two `useState` slots. */
  class AlertsPanel {
    var dismissed: seq<int>
    var expanded: bool

    constructor ()
      ensures dismissed == [] && expanded
    {
      dismissed := [];
      expanded := true;
    }

    /** The dismiss button: append the PID; the list only grows. */
    method Dismiss(pid: int)
      modifies this
      ensures dismissed == old(dismissed) + [pid]
      ensures forall x :: x in old(dismissed) ==> x in dismissed
      ensures expanded == old(expanded)
    {
      dismissed := dismissed + [pid];
    }

    /** A click on the header. */
    method ToggleExpanded()
      modifies this
      ensures expanded == !old(expanded) && dismissed == old(dismissed)
    {
      expanded := !expanded;
    }

    function Visible(alerts: Option<seq<Alert>>): seq<Alert>
      reads this
    {
      VisibleAlerts(alerts, dismissed)
    }
  }

  /** After a dismissal, the PID stays hidden whatever payload arrives next. */
  method DismissHidesLater(panel: AlertsPanel, pid: int, next: Option<seq<Alert>>)
    modifies panel
    ensures forall a :: a in panel.Visible(next) ==> a.pid != pid
  {
    panel.Dismiss(pid);
  }
}

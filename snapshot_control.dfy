/**
 * The snapshot-control card: the trigger button's loading/success state
 * machine, its label and disabled rule, and the display defaults of the
 * `/snapshot-info` fields.
 */
module SnapshotControl {
  import opened Wrappers

  /** The two `useState` flags of the trigger button. */
  class TriggerButton {
    var loading: bool
    var success: bool

    /** The button is never both busy and showing success. */
    predicate Valid()
      reads this
    {
      !(loading && success)
    }

    constructor ()
      ensures Valid() && !loading && !success
    {
      loading := false;
      success := false;
    }

    /** A click: `setLoading(true); setSuccess(false)` before awaiting the trigger. */
    method Start()
      modifies this
      ensures Valid() && loading && !success
    {
      loading := true;
      success := false;
    }

    /** The awaited trigger resolved: `setSuccess(true)`, then the `finally` clears loading. */
    method Resolved()
      modifies this
      ensures Valid() && success && !loading
    {
      success := true;
      loading := false;
    }

    /** The awaited trigger rejected: only the `finally` runs. */
    method Rejected()
      modifies this
      ensures Valid() && !loading && success == old(success)
    {
      loading := false;
    }

    /** The 3-second timer scheduled on success has fired. */
    method TimeoutElapsed()
      modifies this
      ensures Valid() && !success && loading == old(loading)
    {
      success := false;
    }
  }

  /** One whole `handleTrigger` run: it always ends idle, and shows success iff the trigger resolved. */
  method HandleTrigger(button: TriggerButton, resolves: bool)
    modifies button
    ensures button.Valid() && !button.loading && button.success == resolves
  {
    button.Start();
    if resolves {
      button.Resolved();
    } else {
      button.Rejected();
    }
  }

  /** The button cannot be clicked while a trigger is in flight. */
  function Disabled(loading: bool): (d: bool)
    ensures d <==> loading
  {
    loading
  }

  const CreatingLabel: string := "\U{23F3} Creating..."
  const SuccessLabel: string := "\U{2705} Success!"
  const IdleLabel: string := "\U{1F504} Trigger Snapshot Now"

  /** Loading wins over success, success over the idle label. */
  function Label(loading: bool, success: bool): (text: string)
    ensures text == CreatingLabel <==> loading
    ensures text == SuccessLabel <==> !loading && success
    ensures text == IdleLabel <==> !loading && !success
  {
    if loading then CreatingLabel else if success then SuccessLabel else IdleLabel
  }

  /** In every reachable state the label is determined by one flag alone. */
  lemma LabelOfValidState(loading: bool, success: bool)
    requires !(loading && success)
    ensures Label(loading, success) == CreatingLabel <==> loading
    ensures Label(loading, success) == SuccessLabel <==> success
  {
  }

  /** The `/snapshot-info` fields the card shows. */
  datatype SnapshotInfo = SnapshotInfo(
    totalSnapshots: Option<nat>, timeSinceLast: Option<string>, nextScheduledSnapshot: Option<string>)

  /** What the three cells show; `nextScheduled` is None for "N/A", else the time to format. */
  datatype Cells = Cells(totalSnapshots: nat, lastSnapshot: string, nextScheduled: Option<string>)

  function RenderCells(info: Option<SnapshotInfo>): (c: Cells)
    ensures info.None? ==> c == Cells(0, "Never", None)
    ensures info.Some? ==> c.totalSnapshots == info.value.totalSnapshots.GetOr(0)
    ensures info.Some? && (info.value.timeSinceLast.None? || info.value.timeSinceLast.value == "")
      ==> c.lastSnapshot == "Never"
    ensures info.Some? && info.value.timeSinceLast.Some? && info.value.timeSinceLast.value != ""
      ==> c.lastSnapshot == info.value.timeSinceLast.value
    ensures c.nextScheduled.None? <==>
      info.None? || info.value.nextScheduledSnapshot.None? || info.value.nextScheduledSnapshot.value == ""
  {
    match info
    case None => Cells(0, "Never", None)
    case Some(i) =>
      var last := i.timeSinceLast.GetOr("");
      var next := i.nextScheduledSnapshot.GetOr("");
      Cells(i.totalSnapshots.GetOr(0), if last == "" then "Never" else last,
            if next == "" then None else Some(next))
  }
}

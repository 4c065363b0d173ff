/**
 * The records that cross the wire between the backend and the dashboard:
 * one entry of a snapshot's `processes` list, and one timeline entry.
 */
module Records {
  import opened Wrappers

  /** A JSON scalar held in a process's `alert` object. */
  datatype Field = IntField(i: int) | StrField(s: string) | RealField(r: real)

  /**
   * A process record. `pid` and `name` are always present; every other key may
   * be missing, which is `None` here. Percentages are exact reals.
   */
  datatype Process = Process(
    pid: int,
    name: string,
    cpuPercent: Option<real>,
    memoryPercent: Option<real>,
    memoryMb: Option<real>,
    status: Option<string>,
    user: Option<string>,
    command: Option<string>,
    createTime: Option<string>,
    alert: Option<map<string, Field>>)

  /** `p.get("cpu_percent", 0)`, and `p.cpu_percent || 0` for a number. */
  function CpuOf(p: Process): real {
    p.cpuPercent.GetOr(0.0)
  }

  function MemOf(p: Process): real {
    p.memoryPercent.GetOr(0.0)
  }

  function MemMbOf(p: Process): real {
    p.memoryMb.GetOr(0.0)
  }

  /** One entry of the `/timeline` response. */
  datatype TimelineEntry = TimelineEntry(snapshot: string, time: string)
}

/** The fields of an instance that its mutex guards, and what each critical
    section does to them. Processes are numbered in the order of their launch; a
    command, and the two channels made for it, go by that number. */
module Instance {
  import opened Wrappers
  import opened ByteCounter

  datatype Status = Stopped | Running | Error

  /** A URL as url.Parse sees it. */
  datatype Url = Malformed(text: string) | Url(scheme: string, rest: string)

  /** The live figures: ping, pool, and active TCP and UDP sessions. */
  datatype Live = Live(ping: nat, pool: nat, tcps: nat, udps: nat)

  const IDLE := Live(0, 0, 0, 0)

  /** stopped is None for a channel that was made for no process; nothing ever
      closes such a channel. */
  datatype Fields = Fields(
    status: Status, url: Url, role: string, restart: bool,
    cmd: Option<nat>, stopped: Option<nat>, exited: Option<nat>,
    deleted: bool, runtimeFailure: bool, identity: string, live: Live, traffic: Counters)

  /** As created, or as loaded with the totals that were saved. */
  function Made(url: Url, role: string, restart: bool, saved: Values): Fields {
    Fields(Stopped, url, role, restart, None, None, None, false, false, "", IDLE, AllLoaded(saved))
  }

  predicate SupportedRole(role: string) {
    role == "portal" || role == "vector" || role == "egress"
  }

  predicate UrlAccepted(f: Fields) {
    f.url.Url? && SupportedRole(f.url.scheme) && f.url.scheme == f.role
  }

  // ------------------------------------------------------- Critical sections

  /** resetStoppedInstanceLocked. */
  function ResetStopped(f: Fields): Fields {
    f.(status := Stopped, cmd := None, stopped := None, exited := None,
       runtimeFailure := false, live := IDLE)
  }

  datatype Verdict = Refused | Rejected | Accepted

  /** The tests that startInstanceLocked makes before it launches. */
  function StartVerdict(f: Fields, down: bool): Verdict {
    if down || f.deleted || f.status != Stopped then Refused
    else if !UrlAccepted(f) then Rejected
    else Accepted
  }

  /** Whether the executable was not found, could not be started, or runs. */
  datatype Outcome = NoExecutable | NotStarted | Started

  /** The rest of startInstanceLocked; next numbers the process if it runs. */
  function Launched(f: Fields, outcome: Outcome, next: nat): Fields {
    var ready := f.(traffic := AllRebased(f.traffic), identity := "", live := IDLE, runtimeFailure := false);
    match outcome
    case NoExecutable => ready.(status := Error, runtimeFailure := true)
    case NotStarted => ready.(status := Error, runtimeFailure := true, cmd := None)
    case Started => ready.(status := Running, cmd := Some(next), stopped := Some(next), exited := Some(next))
  }

  /** What stopInstanceLocked finds in its first section. */
  datatype Found = AlreadyStopped | NoProcess | HasProcess(cmd: nat, exited: Option<nat>)

  function StopFinds(f: Fields): Found {
    if f.status == Stopped then AlreadyStopped
    else if f.cmd == None then NoProcess
    else HasProcess(f.cmd.value, f.exited)
  }

  /** The monitor's section, after process g ended; stopClosed tells whether the
      stopped channel of g is closed. */
  function Settled(f: Fields, g: nat, stopClosed: bool, ok: bool): Fields {
    if f.cmd != Some(g) || f.deleted || stopClosed then f
    else if ok then ResetStopped(f)
    else f.(status := Error, cmd := None, exited := None, runtimeFailure := true, live := IDLE)
  }

  /** handlePutInstance, between the stop and the start. */
  function Replaced(f: Fields, url: Url, role: string): Fields {
    f.(url := url, role := role, status := Stopped)
  }

  /** handlePatchInstance's changes of the restart policy and the counters. */
  function Patched(f: Fields, restart: Option<bool>, reset: bool): Fields {
    f.(restart := if restart.Some? then restart.value else f.restart,
       traffic := if reset then AllCleared(f.traffic) else f.traffic)
  }

  /** applyTelemetrySnapshot's section, for the process it is about. */
  function Metered(f: Fields, values: Values, tcps: nat, udps: nat): Fields {
    f.(live := f.live.(tcps := tcps, udps := udps), traffic := AllApplied(f.traffic, values))
  }

  /** telemetryCurrentLocked; stopClosed is about the instance's own channel. */
  predicate TelemetryCurrent(f: Fields, g: nat, stopClosed: bool) {
    !f.deleted && f.cmd == Some(g) && !stopClosed
  }

  /** The instance as the source keeps it: an object whose methods assign fields
      while its mutex is held. */
  class Record {
    var status: Status
    var url: Url
    var role: string
    var restart: bool
    var cmd: Option<nat>
    var stopped: Option<nat>
    var exited: Option<nat>
    var deleted: bool
    var runtimeFailure: bool
    var telemetryIdentity: string
    var live: Live
    const traffic: Traffic

    function State(): Fields
      reads this, traffic
    {
      Fields(status, url, role, restart, cmd, stopped, exited, deleted, runtimeFailure,
             telemetryIdentity, live, traffic.State())
    }

    constructor (url: Url, role: string, restart: bool, saved: Values)
      ensures State() == Made(url, role, restart, saved)
      ensures fresh(traffic)
    {
      this.url, this.role, this.restart := url, role, restart;
      status := Stopped;
      cmd, stopped, exited := None, None, None;
      deleted, runtimeFailure, telemetryIdentity := false, false, "";
      live := IDLE;
      traffic := new Traffic(saved);
    }

    method ResetStoppedLocked()
      modifies this
      ensures State() == ResetStopped(old(State()))
    {
      status := Stopped;
      cmd := None;
      stopped := None;
      exited := None;
      runtimeFailure := false;
      live := IDLE;
    }

    method StartTestsLocked(down: bool) returns (verdict: Verdict)
      modifies this
      ensures verdict == StartVerdict(old(State()), down)
      ensures State() == if verdict == Rejected then old(State()).(status := Error, runtimeFailure := false)
                         else old(State())
    {
      if down {
        return Refused;
      }
      if deleted || status != Stopped {
        return Refused;
      }
      if url.Malformed? || !SupportedRole(url.scheme) || url.scheme != role {
        status := Error;
        runtimeFailure := false;
        return Rejected;
      }
      return Accepted;
    }

    method LaunchLocked(outcome: Outcome, next: nat)
      modifies this, traffic
      ensures State() == Launched(old(State()), outcome, next)
    {
      traffic.Rebase();
      telemetryIdentity := "";
      live := IDLE;
      runtimeFailure := false;
      if outcome == NoExecutable {
        status := Error;
        runtimeFailure := true;
        return;
      }
      cmd := Some(next);
      if outcome == NotStarted {
        status := Error;
        runtimeFailure := true;
        cmd := None;
        return;
      }
      stopped := Some(next);
      exited := Some(next);
      status := Running;
    }

    /** Returns what was found. The stopped channel of a process that was found is
        closed by the caller, which keeps the channels. */
    method StopFirstLocked() returns (found: Found)
      modifies this
      ensures found == StopFinds(old(State()))
      ensures State() == if found == NoProcess then ResetStopped(old(State())) else old(State())
    {
      if status == Stopped {
        return AlreadyStopped;
      }
      if cmd == None {
        ResetStoppedLocked();
        return NoProcess;
      }
      return HasProcess(cmd.value, exited);
    }

    method SettleLocked(g: nat, stopClosed: bool, ok: bool) returns (settled: bool)
      modifies this
      ensures State() == Settled(old(State()), g, stopClosed, ok)
      ensures settled <==> old(State()).cmd == Some(g) && !old(State()).deleted && !stopClosed
    {
      var current := cmd == Some(g) && !deleted;
      if current && !stopClosed {
        if !ok {
          status := Error;
          cmd := None;
          exited := None;
          runtimeFailure := true;
          live := IDLE;
        } else {
          ResetStoppedLocked();
        }
      }
      return current && !stopClosed;
    }

    method ReplaceLocked(url: Url, role: string)
      modifies this
      ensures State() == Replaced(old(State()), url, role)
    {
      this.url := url;
      this.role := role;
      status := Stopped;
    }

    method PatchLocked(restart: Option<bool>, reset: bool)
      modifies this, traffic
      ensures State() == Patched(old(State()), restart, reset)
    {
      if reset {
        traffic.Reset();
      }
      if restart.Some? {
        this.restart := restart.value;
      }
    }

    method ApplyHelloLocked(g: nat, stopClosed: bool, name: string) returns (current: bool)
      modifies this
      ensures current == TelemetryCurrent(old(State()), g, stopClosed)
      ensures State() == if current then old(State()).(identity := name) else old(State())
    {
      current := !deleted && cmd == Some(g) && !stopClosed;
      if current {
        telemetryIdentity := name;
      }
    }

    method ApplySnapshotLocked(g: nat, stopClosed: bool, values: Values, tcpActive: nat, udpActive: nat)
      returns (current: bool)
      modifies this, traffic
      ensures current == TelemetryCurrent(old(State()), g, stopClosed)
      ensures State() == if current then Metered(old(State()), values, tcpActive, udpActive) else old(State())
    {
      current := !deleted && cmd == Some(g) && !stopClosed;
      if current {
        live := live.(tcps := tcpActive, udps := udpActive);
        traffic.ApplySnapshot(values.tcpRX, values.tcpTX, values.udpRX, values.udpTX);
      }
    }

    method ClearActiveLocked(g: nat, stopClosed: bool)
      modifies this
      ensures State() == if TelemetryCurrent(old(State()), g, stopClosed)
                         then old(State()).(live := old(State()).live.(tcps := 0, udps := 0)) else old(State())
    {
      if !deleted && cmd == Some(g) && !stopClosed {
        live := live.(tcps := 0, udps := 0);
      }
    }
  }
}

/**
 * `MultiProcessMonitor`: watches for game processes and reports each new
 * one whose main window is the game's viewport, up to a maximum number of
 * monitored processes.
 *
 * One scan of the operating system's processes is modelled by its result: a
 * list of candidates, each with its process id, whether it has exited, and
 * its window title and window class (empty when it has no window yet).
 */
module MultiProcessMonitor {
  import opened Bytes
  import opened MarketCommon
  import Text

  /** A process found by name, as one scan sees it. */
  datatype Candidate = Candidate(pid: int32, hasExited: bool, windowTitle: string, windowClass: string)

  /** `ProcessFoundEventArgs`. */
  datatype ProcessFound = ProcessFound(processId: int32, processName: string, windowTitle: string, windowClassName: string)

  /** The window class of the game's main window. */
  const VIEWPORT_CLASS := "l2UnrealWWindowsViewportWindow"

  const DEFAULT_PROCESS_NAME := "l2.exe"
  const DEFAULT_MONITORING_INTERVAL: Ticks := 30_000_000
  const DEFAULT_MAX_PROCESSES: int32 := 10

  /** `Replace(pat, "")`: every occurrence of `pat`, searched left to right, is cut out. */
  function RemoveAll(s: string, pat: string): (r: string)
    requires |pat| > 0
    ensures |r| <= |s|
  {
    if |s| < |pat| then s
    else if s[..|pat|] == pat then RemoveAll(s[|pat|..], pat)
    else [s[0]] + RemoveAll(s[1..], pat)
  }

  /** A name without the pattern is left as it is. */
  lemma {:induction false} RemoveAllAbsent(s: string, pat: string)
    requires |pat| > 0 && !Text.Contains(s, pat)
    ensures RemoveAll(s, pat) == s
  {
    if |s| >= |pat| {
      assert !Text.OccursAt(s, pat, 0);
      forall i | 0 <= i <= |s[1..]| ensures !Text.OccursAt(s[1..], pat, i) {
        assert !Text.OccursAt(s, pat, i + 1);
        if i + |pat| <= |s[1..]| {
          assert s[i + 1..i + 1 + |pat|] == s[1..][i..i + |pat|];
        }
      }
      RemoveAllAbsent(s[1..], pat);
    }
  }

  /** The name searched for: the process name without ".exe"; for the default, "l2". */
  function SearchName(processName: string): (r: string)
    ensures processName == DEFAULT_PROCESS_NAME ==> r == "l2"
  {
    RemoveAll(processName, ".exe")
  }

  /** `Where(p => !p.HasExited && !monitored.Contains(p.Id))`. */
  function Eligible(cs: seq<Candidate>, monitored: set<int32>): (r: seq<Candidate>)
    ensures |r| <= |cs|
    ensures forall c | c in r :: c in cs && !c.hasExited && c.pid !in monitored
    ensures forall c | c in cs && !c.hasExited && c.pid !in monitored :: c in r
  {
    if cs == [] then []
    else
      var rest := Eligible(cs[1..], monitored);
      assert forall c | c in cs[1..] :: c in cs;
      if !cs[0].hasExited && cs[0].pid !in monitored then [cs[0]] + rest else rest
  }

  /** `Take(n)`: the first `n` elements, none when `n` is not positive. */
  function Take(xs: seq<Candidate>, n: int): (r: seq<Candidate>)
    ensures r <= xs
    ensures |r| == if n <= 0 then 0 else if n < |xs| then n else |xs|
  {
    if n <= 0 then [] else if n < |xs| then xs[..n] else xs
  }

  /**
   * The candidates a scan considers: eligible ones, no more than the room left
   * under the maximum. The room is `MaxProcesses - Count` in unchecked 32-bit
   * arithmetic, and `MaxProcesses` has a public setter, so a very negative
   * maximum wraps round to a large room.
   */
  function Selected(cs: seq<Candidate>, monitored: set<int32>, maxProcesses: int32): (r: seq<Candidate>)
    ensures r <= Eligible(cs, monitored)
    ensures 0 <= maxProcesses as int && |monitored| <= 0x7FFF_FFFF ==>
      (r == [] || |monitored| + |r| <= maxProcesses as int)
  {
    RoomUnwrapped(monitored, maxProcesses);
    Take(Eligible(cs, monitored), Wrap32(maxProcesses as int - |monitored|))
  }

  /** A non-negative maximum and a count within `int` leave the room unwrapped. */
  lemma RoomUnwrapped(monitored: set<int32>, maxProcesses: int32)
    ensures 0 <= maxProcesses as int && |monitored| <= 0x7FFF_FFFF ==>
      Wrap32(maxProcesses as int - |monitored|) == maxProcesses as int - |monitored|
  {
    var x := maxProcesses as int - |monitored|;
    if 0 <= maxProcesses as int && |monitored| <= 0x7FFF_FFFF {
      if x < 0 {
        assert x % 0x1_0000_0000 == x + 0x1_0000_0000;
      } else {
        assert x % 0x1_0000_0000 == x;
      }
    }
  }

  /**
   * With the maximum set to `int.MinValue` and one process monitored, the room
   * wraps to `int.MaxValue`: every eligible candidate is considered.
   */
  lemma WrappedRoomTakesAll(cs: seq<Candidate>, monitored: set<int32>)
    requires |monitored| == 1
    ensures Selected(cs, monitored, -0x8000_0000) == Take(Eligible(cs, monitored), 0x7FFF_FFFF)
    ensures |cs| <= 0x7FFF_FFFF ==> Selected(cs, monitored, -0x8000_0000) == Eligible(cs, monitored)
  {
    assert Wrap32(-0x8000_0000 - 1) == 0x7FFF_FFFF;
  }

  /** The game window is ready: its class names the viewport. */
  predicate Ready(c: Candidate)
  {
    Text.Contains(c.windowClass, VIEWPORT_CLASS)
  }

  /** What the scan reports for the candidates it considers: the ready ones, in order. */
  function Reports(xs: seq<Candidate>, processName: string): seq<ProcessFound>
  {
    if xs == [] then []
    else
      var c := xs[|xs| - 1];
      Reports(xs[..|xs| - 1], processName)
        + (if Ready(c) then [ProcessFound(c.pid, processName, c.windowTitle, c.windowClass)] else [])
  }

  /** The process ids of some reports. */
  function ReportedPids(fs: seq<ProcessFound>): set<int32>
  {
    set f | f in fs :: f.processId
  }

  /**
   * Every report is of a ready candidate among those considered, under the
   * monitor's name; a ready candidate is reported; and no more reports are
   * made than candidates considered.
   */
  lemma {:induction false} ReportsOf(xs: seq<Candidate>, processName: string)
    ensures |Reports(xs, processName)| <= |xs|
    ensures forall f | f in Reports(xs, processName) ::
      f.processName == processName && exists c | c in xs :: Ready(c) && f == ProcessFound(c.pid, processName, c.windowTitle, c.windowClass)
    ensures forall c | c in xs && Ready(c) :: ProcessFound(c.pid, processName, c.windowTitle, c.windowClass) in Reports(xs, processName)
  {
    if xs != [] {
      var init := xs[..|xs| - 1];
      var c := xs[|xs| - 1];
      ReportsOf(init, processName);
      assert xs == init + [c];
      assert forall d | d in init :: d in xs;
    }
  }

  /** A list of reports names no more processes than it has entries. */
  lemma {:induction false} ReportedPidsSize(fs: seq<ProcessFound>)
    ensures |ReportedPids(fs)| <= |fs|
  {
    if fs != [] {
      var init := fs[..|fs| - 1];
      ReportedPidsSize(init);
      assert fs == init + [fs[|fs| - 1]];
      assert ReportedPids(fs) == ReportedPids(init) + {fs[|fs| - 1].processId};
    }
  }

  /** When the candidates have different process ids, so do the reports. */
  lemma {:induction false} ReportsDistinct(xs: seq<Candidate>, processName: string)
    requires forall i, j | 0 <= i < j < |xs| :: xs[i].pid != xs[j].pid
    ensures var fs := Reports(xs, processName);
      forall i, j | 0 <= i < j < |fs| :: fs[i].processId != fs[j].processId
  {
    if xs != [] {
      var init := xs[..|xs| - 1];
      var c := xs[|xs| - 1];
      ReportsDistinct(init, processName);
      ReportsOf(init, processName);
      var fs0 := Reports(init, processName);
      var fs := Reports(xs, processName);
      forall i, j | 0 <= i < j < |fs| ensures fs[i].processId != fs[j].processId {
        if j >= |fs0| {
          assert fs[i] in fs0;
          var d :| d in init && Ready(d) && fs[i] == ProcessFound(d.pid, processName, d.windowTitle, d.windowClass);
          var k :| 0 <= k < |init| && init[k] == d;
          assert xs[k] == d;
        } else {
          assert fs[i] == fs0[i] && fs[j] == fs0[j];
        }
      }
    }
  }

  /** Considering one more candidate adds its report, if it is ready. */
  lemma ReportStep(xs: seq<Candidate>, i: nat, processName: string)
    requires i < |xs|
    ensures var c := xs[i];
      Reports(xs[..i + 1], processName) ==
        Reports(xs[..i], processName) + (if Ready(c) then [ProcessFound(c.pid, processName, c.windowTitle, c.windowClass)] else [])
  {
    assert xs[..i + 1][..i] == xs[..i];
  }

  /** One more report adds its process id. */
  lemma PidsStep(fs: seq<ProcessFound>, f: ProcessFound)
    ensures ReportedPids(fs + [f]) == ReportedPids(fs) + {f.processId}
  {
    assert forall g | g in fs + [f] :: g in fs || g == f;
  }

  /**
   * A scan reports only processes not yet monitored. With a non-negative
   * maximum and a count within `int`, it keeps the monitored set within the
   * maximum when it was within it, and reports nothing once the maximum is
   * reached.
   */
  lemma ScanBounds(cs: seq<Candidate>, monitored: set<int32>, maxProcesses: int32, processName: string)
    ensures var fs := Reports(Selected(cs, monitored, maxProcesses), processName);
      && (forall f | f in fs :: f.processId !in monitored)
      && (0 <= maxProcesses as int && |monitored| <= maxProcesses as int ==>
            |monitored + ReportedPids(fs)| <= maxProcesses as int)
      && (0 <= maxProcesses as int <= |monitored| <= 0x7FFF_FFFF ==> fs == [])
  {
    var selected := Selected(cs, monitored, maxProcesses);
    var fs := Reports(selected, processName);
    ReportsOf(selected, processName);
    forall f | f in fs ensures f.processId !in monitored {
      var c :| c in selected && Ready(c) && f == ProcessFound(c.pid, processName, c.windowTitle, c.windowClass);
      assert c in Eligible(cs, monitored);
    }
    ReportedPidsSize(fs);
    RoomUnwrapped(monitored, maxProcesses);
  }

  class MultiProcessMonitor {
    /** `_monitoredProcessIds`: the processes reported so far. */
    var monitored: set<int32>
    /** `IsMonitoring`: the monitoring loop runs. */
    var monitoring: bool
    var processName: string
    var monitoringInterval: Ticks
    var maxProcesses: int32

    /** A monitor for "l2.exe", every 3 seconds, of at most 10 processes. */
    constructor()
      ensures monitored == {} && !monitoring
      ensures processName == DEFAULT_PROCESS_NAME && monitoringInterval == DEFAULT_MONITORING_INTERVAL
      ensures maxProcesses == DEFAULT_MAX_PROCESSES
    {
      monitored := {};
      monitoring := false;
      processName := DEFAULT_PROCESS_NAME;
      monitoringInterval := DEFAULT_MONITORING_INTERVAL;
      maxProcesses := DEFAULT_MAX_PROCESSES;
    }

    /** `StartMonitoringAsync`: starts the loop unless it already runs. */
    method StartMonitoring()
      modifies this
      ensures monitoring
      ensures monitored == old(monitored) && processName == old(processName) && maxProcesses == old(maxProcesses)
    {
      if monitoring {
        return;
      }
      monitoring := true;
    }

    /** `StopMonitoringAsync`: stops the loop when it runs; the monitored processes are kept. */
    method StopMonitoring()
      modifies this
      ensures !monitoring
      ensures monitored == old(monitored) && processName == old(processName) && maxProcesses == old(maxProcesses)
    {
      if !monitoring {
        return;
      }
      monitoring := false;
    }

    /**
     * `CheckForNewProcesses`: of the candidates still running and not yet
     * monitored, at most the room left under the maximum are considered; each
     * whose window is ready is recorded and reported, the others are left for
     * a later scan.
     */
    method CheckForNewProcesses(candidates: seq<Candidate>) returns (found: seq<ProcessFound>)
      modifies this
      ensures found == Reports(Selected(candidates, old(monitored), maxProcesses), processName)
      ensures monitored == old(monitored) + ReportedPids(found)
      ensures monitoring == old(monitoring) && processName == old(processName) && maxProcesses == old(maxProcesses)
      ensures forall f | f in found :: f.processId !in old(monitored)
      ensures 0 <= maxProcesses as int && |old(monitored)| <= maxProcesses as int ==> |monitored| <= maxProcesses as int
      ensures 0 <= maxProcesses as int <= |old(monitored)| <= 0x7FFF_FFFF ==> found == [] && monitored == old(monitored)
    {
      var selected := Selected(candidates, monitored, maxProcesses);
      ghost var before := monitored;
      found := [];
      for i := 0 to |selected|
        invariant found == Reports(selected[..i], processName)
        invariant monitored == before + ReportedPids(found)
        invariant monitoring == old(monitoring) && processName == old(processName) && maxProcesses == old(maxProcesses)
      {
        var c := selected[i];
        ReportStep(selected, i, processName);
        if Ready(c) {
          var f := ProcessFound(c.pid, processName, c.windowTitle, c.windowClass);
          PidsStep(found, f);
          monitored := monitored + {c.pid};
          found := found + [f];
        }
      }
      assert selected[..|selected|] == selected;
      ScanBounds(candidates, before, maxProcesses, processName);
    }
  }
}

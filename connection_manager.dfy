/**
 * `ConnectionManager`: the connections to the game processes, at most one
 * per process id. A connection is added in the "Connecting..." state, its
 * status is updated in place as the pipe connects and disconnects, and it is
 * removed by its connection id.
 *
 * New connection ids (`Guid.NewGuid`) and the current time are parameters.
 */
module ConnectionManagement {
  import opened Bytes
  import opened Wrappers
  import opened MarketCommon

  /** A 128-bit connection id, compared only for equality. */
  type Guid = x: nat | x < 0x1_0000_0000_0000_0000_0000_0000_0000_0000

  const CONNECTING := "Connecting..."
  const CONNECTED := "Connected"
  const DISCONNECTED := "Disconnected"

  /** `ConnectionInfo`: the process a connection belongs to and its state. */
  class ConnectionInfo {
    const connectionId: Guid
    const processId: int32
    const processName: string
    var windowTitle: string
    var isConnected: bool
    var connectionStatus: string
    var connectedAt: Ticks

    constructor(connectionId: Guid, processId: int32, processName: string, windowTitle: string,
                isConnected: bool, connectionStatus: string, connectedAt: Ticks)
      ensures this.connectionId == connectionId && this.processId == processId && this.processName == processName
      ensures this.windowTitle == windowTitle && this.isConnected == isConnected
      ensures this.connectionStatus == connectionStatus && this.connectedAt == connectedAt
    {
      this.connectionId := connectionId;
      this.processId := processId;
      this.processName := processName;
      this.windowTitle := windowTitle;
      this.isConnected := isConnected;
      this.connectionStatus := connectionStatus;
      this.connectedAt := connectedAt;
    }
  }

  /** `FirstOrDefault(c => c.ConnectionId == id)`, as an index. */
  function IndexOfId(cs: seq<ConnectionInfo>, id: Guid): (r: Option<nat>)
    ensures r.Some? ==> r.value < |cs| && cs[r.value].connectionId == id
    ensures r.Some? ==> forall j | 0 <= j < r.value :: cs[j].connectionId != id
    ensures r.None? ==> forall j | 0 <= j < |cs| :: cs[j].connectionId != id
  {
    if cs == [] then None
    else if cs[0].connectionId == id then Some(0)
    else match IndexOfId(cs[1..], id)
      case None => None
      case Some(i) => Some(i + 1)
  }

  /** `FirstOrDefault(c => c.ProcessId == pid)`, as an index. */
  function IndexOfPid(cs: seq<ConnectionInfo>, pid: int32): (r: Option<nat>)
    ensures r.Some? ==> r.value < |cs| && cs[r.value].processId == pid
    ensures r.None? ==> forall j | 0 <= j < |cs| :: cs[j].processId != pid
  {
    if cs == [] then None
    else if cs[0].processId == pid then Some(0)
    else match IndexOfPid(cs[1..], pid)
      case None => None
      case Some(i) => Some(i + 1)
  }

  /** `Count(c => c.IsConnected)`. */
  function CountConnected(cs: seq<ConnectionInfo>): (r: nat)
    reads cs
    ensures r <= |cs|
    ensures r == 0 <==> forall j | 0 <= j < |cs| :: !cs[j].isConnected
  {
    if cs == [] then 0
    else (if cs[0].isConnected then 1 else 0) + CountConnected(cs[1..])
  }

  /** `Any(c => c.ProcessId == pid && c.IsConnected)`. */
  function AnyConnected(cs: seq<ConnectionInfo>, pid: int32): (r: bool)
    reads cs
    ensures r <==> exists j | 0 <= j < |cs| :: cs[j].processId == pid && cs[j].isConnected
  {
    if cs == [] then false
    else if cs[0].processId == pid && cs[0].isConnected then true
    else
      var rest := AnyConnected(cs[1..], pid);
      assert rest ==> exists j | 0 <= j < |cs| :: cs[j].processId == pid && cs[j].isConnected by {
        if rest {
          var k :| 0 <= k < |cs[1..]| && cs[1..][k].processId == pid && cs[1..][k].isConnected;
          assert cs[k + 1] == cs[1..][k];
        }
      }
      assert (exists j | 0 <= j < |cs| :: cs[j].processId == pid && cs[j].isConnected) ==> rest by {
        if exists j | 0 <= j < |cs| :: cs[j].processId == pid && cs[j].isConnected {
          var j :| 0 <= j < |cs| && cs[j].processId == pid && cs[j].isConnected;
          assert j > 0 && cs[1..][j - 1] == cs[j];
        }
      }
      rest
  }

  /** The status a connection shows after an update: the one given, or the flag's own word. */
  function UpdatedStatus(isConnected: bool, status: string): (r: string)
    ensures r != ""
    ensures status != "" ==> r == status
    ensures status == "" ==> (r == CONNECTED <==> isConnected)
  {
    if status != "" then status
    else if isConnected then CONNECTED
    else DISCONNECTED
  }

  /** No process has two connections. */
  ghost predicate OnePerProcess(cs: seq<ConnectionInfo>)
  {
    forall i, j | 0 <= i < j < |cs| :: cs[i].processId != cs[j].processId
  }

  /** The processes that have a connection. */
  ghost function Pids(cs: seq<ConnectionInfo>): set<int32>
  {
    set i | 0 <= i < |cs| :: cs[i].processId
  }

  /** With one connection per process, there are as many processes as connections. */
  lemma {:induction false} PidsCount(cs: seq<ConnectionInfo>)
    requires OnePerProcess(cs)
    ensures |Pids(cs)| == |cs|
    decreases |cs|
  {
    if |cs| > 0 {
      var init, last := cs[..|cs| - 1], cs[|cs| - 1];
      assert OnePerProcess(init);
      PidsCount(init);
      assert Pids(cs) == Pids(init) + {last.processId} by {
        forall i | 0 <= i < |init| ensures init[i] == cs[i] { }
      }
      assert last.processId !in Pids(init);
    }
  }

  lemma ProcessesCounted(cs: seq<ConnectionInfo>)
    ensures OnePerProcess(cs) ==> |Pids(cs)| == |cs|
  {
    if OnePerProcess(cs) {
      PidsCount(cs);
    }
  }

  class ConnectionManager {
    /** `Connections`, in the order they were added. */
    var connections: seq<ConnectionInfo>

    ghost predicate Valid()
      reads this
    {
      OnePerProcess(connections)
    }

    constructor()
      ensures Valid() && connections == []
    {
      connections := [];
    }

    /** `ConnectionCount`: one connection per process, so the number of processes with a connection. */
    function ConnectionCount(): (r: nat)
      reads this
      ensures Valid() ==> r == |Pids(connections)|
    {
      ProcessesCounted(connections);
      |connections|
    }

    /** `ConnectedCount`: never more than the connections. */
    function ConnectedCount(): (r: nat)
      reads this, connections
      ensures r <= ConnectionCount()
    {
      CountConnected(connections)
    }

    /** `IsProcessConnected`: some connection of the process is connected. */
    function IsProcessConnected(pid: int32): (r: bool)
      reads this, connections
      ensures r <==> exists c | c in connections :: c.processId == pid && c.isConnected
    {
      assert forall c | c in connections :: exists j | 0 <= j < |connections| :: connections[j] == c;
      AnyConnected(connections, pid)
    }

    /** `GetConnectionAsync`: the connection with the id, if any. */
    function GetConnection(id: Guid): (r: Option<ConnectionInfo>)
      reads this
      ensures r.Some? ==> r.value in connections && r.value.connectionId == id
      ensures r.None? ==> forall c | c in connections :: c.connectionId != id
    {
      match IndexOfId(connections, id)
      case None => None
      case Some(i) => Some(connections[i])
    }

    /** `GetConnectionByProcessIdAsync`: the connection of the process, if any. */
    function GetConnectionByProcessId(pid: int32): (r: Option<ConnectionInfo>)
      reads this
      ensures r.Some? ==> r.value in connections && r.value.processId == pid
      ensures r.None? ==> forall c | c in connections :: c.processId != pid
    {
      match IndexOfPid(connections, pid)
      case None => None
      case Some(i) => Some(connections[i])
    }

    /**
     * `AddConnectionAsync`: a process that already has a connection gets
     * that connection back and nothing changes; otherwise a new connection,
     * not yet connected and "Connecting...", is appended.
     */
    method AddConnection(processId: int32, processName: string, windowTitle: string, newId: Guid, now: Ticks)
      returns (c: ConnectionInfo)
      requires Valid()
      modifies this
      ensures Valid()
      ensures GetConnectionByProcessId(processId) == Some(c)
      ensures old(GetConnectionByProcessId(processId)).Some? ==>
        c == old(GetConnectionByProcessId(processId)).value && connections == old(connections)
      ensures old(GetConnectionByProcessId(processId)).None? ==>
        && fresh(c) && connections == old(connections) + [c]
        && c.connectionId == newId && c.processId == processId && c.processName == processName
        && c.windowTitle == windowTitle && !c.isConnected && c.connectionStatus == CONNECTING && c.connectedAt == now
    {
      var existing := IndexOfPid(connections, processId);
      if existing.Some? {
        return connections[existing.value];
      }
      c := new ConnectionInfo(newId, processId, processName, windowTitle, false, CONNECTING, now);
      connections := connections + [c];
      assert IndexOfPid(connections[..|connections| - 1], processId).None?;
      PidOfLast(connections, processId);
    }

    /** `RemoveConnectionAsync`: the first connection with the id is removed; false when there is none. */
    method RemoveConnection(id: Guid) returns (removed: bool)
      requires Valid()
      modifies this
      ensures Valid()
      ensures removed <==> IndexOfId(old(connections), id).Some?
      ensures removed ==> var i := IndexOfId(old(connections), id).value;
        connections == old(connections)[..i] + old(connections)[i + 1..]
      ensures !removed ==> connections == old(connections)
    {
      var found := IndexOfId(connections, id);
      if found.None? {
        return false;
      }
      var i := found.value;
      var before := connections;
      connections := connections[..i] + connections[i + 1..];
      forall a, b | 0 <= a < b < |connections| ensures connections[a].processId != connections[b].processId {
        var a', b' := if a < i then a else a + 1, if b < i then b else b + 1;
        assert connections[a] == before[a'] && connections[b] == before[b'];
      }
      return true;
    }

    /**
     * `UpdateConnectionStatusAsync`: an unknown id changes nothing; otherwise
     * the connection takes the flag and the status (the given one, or the
     * flag's own word), and its connection time restarts when it goes from
     * disconnected to connected.
     */
    method UpdateConnectionStatus(id: Guid, isConnected: bool, status: string, now: Ticks)
      requires Valid()
      modifies connections
      ensures Valid() && connections == old(connections)
      ensures IndexOfId(connections, id).None? ==> forall c | c in connections :: unchanged(c)
      ensures IndexOfId(connections, id).Some? ==>
        var c := connections[IndexOfId(connections, id).value];
        && c.isConnected == isConnected
        && c.connectionStatus == UpdatedStatus(isConnected, status)
        && c.connectedAt == (if isConnected && !old(c.isConnected) then now else old(c.connectedAt))
        && c.windowTitle == old(c.windowTitle)
        && forall d | d in connections && d != c :: unchanged(d)
    {
      var found := IndexOfId(connections, id);
      if found.None? {
        return;
      }
      var c := connections[found.value];
      var wasConnected := c.isConnected;
      c.isConnected := isConnected;
      c.connectionStatus := UpdatedStatus(isConnected, status);
      if isConnected && !wasConnected {
        c.connectedAt := now;
      }
    }
  }

  /** A list whose earlier part has no connection of the process finds it at its last element. */
  lemma PidOfLast(cs: seq<ConnectionInfo>, pid: int32)
    requires |cs| > 0 && cs[|cs| - 1].processId == pid
    requires IndexOfPid(cs[..|cs| - 1], pid).None?
    ensures IndexOfPid(cs, pid) == Some(|cs| - 1)
  {
    if |cs| > 1 {
      assert cs[1..][..|cs[1..]| - 1] == cs[..|cs| - 1][1..];
      assert cs[0] == cs[..|cs| - 1][0];
      PidOfLast(cs[1..], pid);
    }
  }
}
